/**
 * The voice encryption modes of severus (`encrypt.rs`): the two AEAD
 * `*_rtpsize` modes Discord negotiates, the sizes they add after the
 * payload, where the 4-byte nonce sits in a packet, and the per-packet
 * nonce counter.
 *
 * The ciphers themselves (key setup, sealing and opening) are foreign code
 * and are not part of this model.
 */
module CryptoModes {
  import opened Wrappers
  import opened Bytes

  datatype CryptoMode = Aes256Gcm | XChaCha20Poly1305

  /** `UnrecognisedCryptoMode`: the string names no supported mode. */
  datatype UnrecognisedCryptoMode = UnrecognisedCryptoMode

  /** The AEAD's authentication tag failed or the packet is too short (`aes_gcm::Error`). */
  datatype CryptoError = CryptoError

  datatype EncryptionAlgorithm = AlgAes256Gcm | AlgXChaCha20Poly1305

  const AesModeName: string := "aead_aes256_gcm_rtpsize"
  const XChaChaModeName: string := "aead_xchacha20_poly1305_rtpsize"

  /** `CryptoMode::from_str`: exactly the two mode names are accepted. */
  function FromStr(s: string): (r: Result<CryptoMode, UnrecognisedCryptoMode>)
    ensures r.Success? <==> s == AesModeName || s == XChaChaModeName
    ensures r == Success(Aes256Gcm) <==> s == AesModeName
    ensures r == Success(XChaCha20Poly1305) <==> s == XChaChaModeName
  {
    if s == AesModeName then Success(Aes256Gcm)
    else if s == XChaChaModeName then Success(XChaCha20Poly1305)
    else Failure(UnrecognisedCryptoMode)
  }

  /** The name Discord uses for each mode. */
  function Name(m: CryptoMode): string
  {
    match m
    case Aes256Gcm => AesModeName
    case XChaCha20Poly1305 => XChaChaModeName
  }

  /** Parsing a mode's name gives the mode back; the two names differ. */
  lemma FromStrName(m: CryptoMode)
    ensures FromStr(Name(m)) == Success(m)
  {
    assert AesModeName[5] != XChaChaModeName[5];
  }

  function Algorithm(m: CryptoMode): EncryptionAlgorithm
  {
    match m
    case Aes256Gcm => AlgAes256Gcm
    case XChaCha20Poly1305 => AlgXChaCha20Poly1305
  }

  /** `encryption_tag_len`: both AEADs use a 16-byte tag. */
  function EncryptionTagLen(a: EncryptionAlgorithm): nat
  {
    16
  }

  /** `nonce_size`: the nonce is stored in 4 bytes for both modes. */
  function NonceSize(m: CryptoMode): nat
  {
    4
  }

  function TagSuffixLen(m: CryptoMode): nat
  {
    EncryptionTagLen(Algorithm(m))
  }

  /** `payload_suffix_len`: the nonce and the tag both follow the payload. */
  function PayloadSuffixLen(m: CryptoMode): (n: nat)
    ensures n == NonceSize(m) + TagSuffixLen(m)
    ensures n == 20
  {
    NonceSize(m) + EncryptionTagLen(Algorithm(m))
  }

  /**
   * `nonce_slice`: a body shorter than the suffix is an error; otherwise the
   * last `nonce_size` bytes are the nonce and the rest is returned as the body.
   */
  function NonceSlice(m: CryptoMode, body: seq<Byte>): (r: Result<(seq<Byte>, seq<Byte>), CryptoError>)
    ensures r.Failure? <==> |body| < PayloadSuffixLen(m)
    ensures r.Success? ==> |r.value.0| == NonceSize(m) && r.value.1 + r.value.0 == body
  {
    var len := |body|;
    if len < PayloadSuffixLen(m) then Failure(CryptoError)
    else Success((body[len - NonceSize(m)..], body[..len - NonceSize(m)]))
  }

  const U32Modulus: nat := 0x1_0000_0000
  type U32 = x: int | 0 <= x < 0x1_0000_0000

  /** `CryptoState`: the mode together with the last nonce used (a `Wrapping<u32>`). */
  datatype CryptoState = AesState(nonce: U32) | XChaChaState(nonce: U32)

  /** `CryptoState::from(mode)`: a state of the same mode, starting from a random nonce. */
  function FromMode(m: CryptoMode, random: U32): CryptoState
  {
    match m
    case Aes256Gcm => AesState(random)
    case XChaCha20Poly1305 => XChaChaState(random)
  }

  /** `kind` / `CryptoMode::from(state)`: the mode a state belongs to. */
  function Kind(st: CryptoState): CryptoMode
  {
    match st
    case AesState(_) => Aes256Gcm
    case XChaChaState(_) => XChaCha20Poly1305
  }

  /** Mode to state to mode is the identity, whatever the random start. */
  lemma KindFromMode(m: CryptoMode, random: U32)
    ensures Kind(FromMode(m, random)) == m
    ensures FromMode(m, random).nonce == random
  {
  }

  /** The state after one packet: same mode, nonce advanced by one modulo 2^32. */
  function Advance(st: CryptoState): (r: CryptoState)
    ensures Kind(r) == Kind(st)
    ensures st.nonce < U32Modulus - 1 ==> r.nonce == st.nonce + 1
    ensures st.nonce == U32Modulus - 1 ==> r.nonce == 0
  {
    var n := (st.nonce + 1) % U32Modulus;
    match st
    case AesState(_) => AesState(n)
    case XChaChaState(_) => XChaChaState(n)
  }

  /**
   * `write_packet_nonce`: write the current nonce big-endian into the four
   * bytes that end `payload_suffix_len` after the payload, advance the
   * nonce, and return the packet's new end. The slice must lie inside the
   * packet (Rust would panic otherwise).
   */
  method WritePacketNonce(st: CryptoState, packet: array<Byte>, payloadEnd: nat)
    returns (st': CryptoState, endpoint: nat)
    requires payloadEnd + PayloadSuffixLen(Kind(st)) <= packet.Length
    modifies packet
    ensures endpoint == payloadEnd + PayloadSuffixLen(Kind(st))
    ensures packet[..] == old(packet[..endpoint - NonceSize(Kind(st))]) + BE(st.nonce, 4) + old(packet[endpoint..])
    ensures st' == Advance(st)
  {
    var mode := Kind(st);
    endpoint := payloadEnd + PayloadSuffixLen(mode);
    var startpoint := endpoint - NonceSize(mode);
    var bytes := BE(st.nonce, 4);
    ghost var before := packet[..];
    packet[startpoint] := bytes[0];
    packet[startpoint + 1] := bytes[1];
    packet[startpoint + 2] := bytes[2];
    packet[startpoint + 3] := bytes[3];
    st' := Advance(st);
    OverwriteFour(before, startpoint, bytes);
    assert packet[..] == before[..startpoint] + bytes + before[startpoint + 4..];
  }

  /** Four single-byte writes from `p` on replace exactly the four bytes there. */
  lemma OverwriteFour<T>(s: seq<T>, p: nat, bytes: seq<T>)
    requires |bytes| == 4 && p + 4 <= |s|
    ensures s[p := bytes[0]][p + 1 := bytes[1]][p + 2 := bytes[2]][p + 3 := bytes[3]]
      == s[..p] + bytes + s[p + 4..]
  {
  }

  /**
   * The receiving side finds the nonce where the sender wrote it: a packet
   * body that ends with the bytes `write_packet_nonce` wrote is sliced into
   * exactly those four bytes and what precedes them.
   */
  lemma NonceSliceFindsWrittenNonce(m: CryptoMode, prefix: seq<Byte>, nonce: U32)
    requires |prefix| >= TagSuffixLen(m)
    ensures NonceSlice(m, prefix + BE(nonce, 4)) == Success((BE(nonce, 4), prefix))
    ensures FromBE(NonceSlice(m, prefix + BE(nonce, 4)).value.0) == nonce
  {
    var body := prefix + BE(nonce, 4);
    assert body[|body| - 4..] == BE(nonce, 4);
    assert body[..|body| - 4] == prefix;
    BERoundTrip(nonce, 4);
  }

  /** Successive packets carry successive nonces: n packets after `st` the nonce is `st.nonce + n` modulo 2^32. */
  function AdvanceN(st: CryptoState, n: nat): CryptoState
  {
    if n == 0 then st else Advance(AdvanceN(st, n - 1))
  }

  lemma {:induction false} AdvanceNCounts(st: CryptoState, n: nat)
    ensures AdvanceN(st, n).nonce == (st.nonce + n) % U32Modulus
    ensures Kind(AdvanceN(st, n)) == Kind(st)
  {
    if n > 0 {
      AdvanceNCounts(st, n - 1);
      var prev := AdvanceN(st, n - 1);
      assert AdvanceN(st, n).nonce == (prev.nonce + 1) % U32Modulus;
      NonceStep(st.nonce + n - 1);
    }
  }

  /** One more packet moves the nonce `x` packets on to `x + 1` packets on, modulo 2^32. */
  lemma NonceStep(x: nat)
    ensures (x % U32Modulus + 1) % U32Modulus == (x + 1) % U32Modulus
  {
    var q, m := x / U32Modulus, x % U32Modulus;
    assert x == q * U32Modulus + m;
    if m + 1 < U32Modulus {
      assert x + 1 == q * U32Modulus + (m + 1);
    } else {
      assert x + 1 == (q + 1) * U32Modulus;
    }
  }
}
