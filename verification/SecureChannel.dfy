/**
 The per-direction cipher state: nonces come from local counters, never from the packet.
 The authenticated cipher itself is ideal: a sealed payload opens under its own key, nonce and
 associated data and under no other.
 */
module SecureChannel {
  import opened Common

  type Bytes = seq<u8>

  datatype Role = Initiator | Responder

  /** The channel key, as a value determined by what is hashed into it. */
  datatype Key = Key(sharedSecret: Bytes, channelId: Bytes)

  datatype Sealed = Sealed(key: Key, nonce: Bytes, aad: Bytes, plaintext: Bytes)

  /** Everything fixed about one direction of a channel. */
  datatype Direction = Direction(key: Key, aad: Bytes, noncePrefix: Bytes)

  function Open(d: Direction, nonce: Bytes, sealed: Sealed): Option<Bytes> {
    if sealed.key == d.key && sealed.nonce == nonce && sealed.aad == d.aad then Some(sealed.plaintext) else None
  }

  /** `n` in `width` bytes, most significant first. */
  function BigEndian(n: nat, width: nat): (bytes: Bytes)
    ensures |bytes| == width
  {
    if width == 0 then [] else BigEndian(n / 256, width - 1) + [n % 256]
  }

  function BuildNonce(prefix: Bytes, counter: u64): (nonce: Bytes)
    ensures |nonce| == |prefix| + 8
  {
    prefix + BigEndian(counter, 8)
  }

  function SealAt(d: Direction, counter: u64, plaintext: Bytes): Sealed {
    Sealed(d.key, BuildNonce(d.noncePrefix, counter), d.aad, plaintext)
  }

  class SecureSender {
    const direction: Direction
    var counter: u64

    constructor (direction: Direction)
      ensures this.direction == direction && counter == 0
    {
      this.direction, counter := direction, 0;
    }

    method Encrypt(plaintext: Bytes) returns (sealed: Sealed)
      modifies this
      ensures sealed == SealAt(direction, old(counter), plaintext)
      ensures counter == SatAdd64(old(counter), 1)
    {
      var nonce := BuildNonce(direction.noncePrefix, counter);
      counter := SatAdd64(counter, 1);
      sealed := Sealed(direction.key, nonce, direction.aad, plaintext);
    }
  }

  class SecureReceiver {
    const direction: Direction
    var counter: u64

    constructor (direction: Direction)
      ensures this.direction == direction && counter == 0
    {
      this.direction, counter := direction, 0;
    }

    /** Opens the next payload; the counter moves on whether or not that succeeds. */
    method Decrypt(sealed: Sealed) returns (plaintext: Option<Bytes>)
      modifies this
      ensures plaintext == Open(direction, BuildNonce(direction.noncePrefix, old(counter)), sealed)
      ensures counter == SatAdd64(old(counter), 1)
    {
      var nonce := BuildNonce(direction.noncePrefix, counter);
      counter := SatAdd64(counter, 1);
      plaintext := Open(direction, nonce, sealed);
    }
  }

  /** The sending and receiving directions of one end of a channel. */
  function SecureChannelPair(sharedSecret: Bytes, channelId: Bytes, role: Role): (Direction, Direction) {
    var key := Key(sharedSecret, channelId);
    var first, second := Direction(key, channelId, [0, 0, 0, 1]), Direction(key, channelId, [0, 0, 0, 2]);
    match role
      case Initiator => (first, second)
      case Responder => (second, first)
  }

  /** The two ends of a channel pair up, and their two directions use different prefixes. */
  lemma PairsMatch(sharedSecret: Bytes, channelId: Bytes)
    ensures
      var (sendI, recvI) := SecureChannelPair(sharedSecret, channelId, Initiator);
      var (sendR, recvR) := SecureChannelPair(sharedSecret, channelId, Responder);
      && sendI == recvR && sendR == recvI
      && |sendI.noncePrefix| == |sendR.noncePrefix| == 4
      && sendI.noncePrefix != sendR.noncePrefix
  {
    var (sendI, _) := SecureChannelPair(sharedSecret, channelId, Initiator);
    var (sendR, _) := SecureChannelPair(sharedSecret, channelId, Responder);
    assert sendI.noncePrefix[3] != sendR.noncePrefix[3];
  }

  function Power256(width: nat): nat { if width == 0 then 1 else 256 * Power256(width - 1) }

  lemma {:induction false} BigEndianInjective(a: nat, b: nat, width: nat)
    requires a < Power256(width) && b < Power256(width)
    requires BigEndian(a, width) == BigEndian(b, width)
    ensures a == b
  {
    if width > 0 {
      var x, y := BigEndian(a, width), BigEndian(b, width);
      assert x[..width - 1] == BigEndian(a / 256, width - 1) && x[width - 1] == a % 256;
      assert y[..width - 1] == BigEndian(b / 256, width - 1) && y[width - 1] == b % 256;
      BigEndianInjective(a / 256, b / 256, width - 1);
    }
  }

  /** Two nonces with prefixes of the same length agree only if prefix and counter both agree. */
  lemma BuildNonceInjective(p: Bytes, c: u64, q: Bytes, d: u64)
    requires |p| == |q|
    requires BuildNonce(p, c) == BuildNonce(q, d)
    ensures p == q && c == d
  {
    var x, y := BuildNonce(p, c), BuildNonce(q, d);
    assert p == x[..|p|] && q == y[..|q|];
    assert BigEndian(c, 8) == x[|p|..] && BigEndian(d, 8) == y[|q|..];
    EightBytes();
    BigEndianInjective(c, d, 8);
  }

  lemma EightBytes()
    ensures Power256(8) == U64_MAX + 1
  {
    assert Power256(4) == 0x1_0000_0000;
    assert Power256(8) == 256 * (256 * (256 * (256 * Power256(4))));
  }

  /** The counter value the `i`-th encryption of a sender uses, counting from zero. */
  function CounterAt(i: nat): u64 {
    if i == 0 then 0 else SatAdd64(CounterAt(i - 1), 1)
  }

  lemma {:induction false} CounterAtSaturates(i: nat)
    ensures CounterAt(i) == Min(i, U64_MAX)
  {
    if i != 0 {
      CounterAtSaturates(i - 1);
    }
  }

  /** One sender repeats a nonce exactly when its counter has already saturated. */
  lemma NonceReuse(d: Direction, i: nat, j: nat)
    requires i < j
    ensures BuildNonce(d.noncePrefix, CounterAt(i)) == BuildNonce(d.noncePrefix, CounterAt(j))
       <==> i >= U64_MAX
  {
    CounterAtSaturates(i);
    CounterAtSaturates(j);
    if i < U64_MAX && BuildNonce(d.noncePrefix, CounterAt(i)) == BuildNonce(d.noncePrefix, CounterAt(j)) {
      BuildNonceInjective(d.noncePrefix, CounterAt(i), d.noncePrefix, CounterAt(j));
    }
  }

  /** A payload opens at exactly the counter value it was sealed at. */
  lemma OpensOnlyInStep(d: Direction, sealedAt: u64, openedAt: u64, plaintext: Bytes)
    ensures Open(d, BuildNonce(d.noncePrefix, openedAt), SealAt(d, sealedAt, plaintext))
         == if openedAt == sealedAt then Some(plaintext) else None
  {
    if BuildNonce(d.noncePrefix, openedAt) == BuildNonce(d.noncePrefix, sealedAt) {
      BuildNonceInjective(d.noncePrefix, openedAt, d.noncePrefix, sealedAt);
    }
  }

  /** What one end seals, exactly the other end of the same channel opens, at the same count. */
  lemma OnlyTheOtherEndOpens(
    sealSecret: Bytes, sealId: Bytes, sealRole: Role, sealedAt: u64,
    openSecret: Bytes, openId: Bytes, openRole: Role, openedAt: u64, plaintext: Bytes)
    ensures
      var sealed := SealAt(SecureChannelPair(sealSecret, sealId, sealRole).0, sealedAt, plaintext);
      var opener := SecureChannelPair(openSecret, openId, openRole).1;
      Open(opener, BuildNonce(opener.noncePrefix, openedAt), sealed)
        == if sealSecret == openSecret && sealId == openId && sealRole != openRole && sealedAt == openedAt
           then Some(plaintext) else None
  {
    var sealer := SecureChannelPair(sealSecret, sealId, sealRole).0;
    var opener := SecureChannelPair(openSecret, openId, openRole).1;
    if BuildNonce(sealer.noncePrefix, sealedAt) == BuildNonce(opener.noncePrefix, openedAt) {
      BuildNonceInjective(sealer.noncePrefix, sealedAt, opener.noncePrefix, openedAt);
    }
  }
}
