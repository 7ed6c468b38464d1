/** The envelope in which API keys are stored: version, IV, ciphertext and tag in one blob. */
module Vault {
  import opened NorushTypes

  type byte = x: int | 0 <= x < 256
  type bytes = seq<byte>

  datatype VaultError =
    | EmptyMasterKey | EmptyPlaintext | BadKeyLength | TooShort | UnsupportedVersion | AuthenticationFailed

  datatype Result<+T> = Ok(value: T) | Err(error: VaultError)

  const ENVELOPE_VERSION: byte := 0x01
  const IV_LENGTH := 12
  const AUTH_TAG_LENGTH := 16
  const MIN_LENGTH := 1 + IV_LENGTH + AUTH_TAG_LENGTH + 1

  /** AES-256-GCM: sections 7.1 and 7.2 of NIST SP 800-38D, taken as given. */
  datatype Cipher = Cipher(
    seal: (bytes, bytes, bytes) -> (bytes, bytes),            // key, IV, plaintext: ciphertext and tag
    open: (bytes, bytes, bytes, bytes) -> Option<bytes>)      // key, IV, ciphertext, tag: plaintext

  /** Decryption undoes encryption, and lengths are preserved. */
  ghost predicate Sealing(c: Cipher) {
    && (forall k, iv, p | |k| == 32 && |iv| == IV_LENGTH ::
          var (ct, tag) := c.seal(k, iv, p);
          |ct| == |p| && |tag| == AUTH_TAG_LENGTH && c.open(k, iv, ct, tag) == Some(p))
    && (forall k, iv, ct, tag | c.open(k, iv, ct, tag).Some? :: |c.open(k, iv, ct, tag).value| == |ct|)
  }

  function Envelope(iv: bytes, ct: bytes, tag: bytes): bytes { [ENVELOPE_VERSION] + iv + ct + tag }

  function IvOf(blob: bytes): bytes
    requires |blob| >= MIN_LENGTH
  {
    blob[1..1 + IV_LENGTH]
  }

  function TagOf(blob: bytes): bytes
    requires |blob| >= MIN_LENGTH
  {
    blob[|blob| - AUTH_TAG_LENGTH..]
  }

  function CiphertextOf(blob: bytes): bytes
    requires |blob| >= MIN_LENGTH
  {
    blob[1 + IV_LENGTH..|blob| - AUTH_TAG_LENGTH]
  }

  /** `iv` stands for the random bytes drawn. */
  function Encrypt(c: Cipher, plaintext: bytes, key: bytes, iv: bytes): Result<bytes> {
    if plaintext == [] then Err(EmptyPlaintext)
    else if |key| != 32 then Err(BadKeyLength)
    else
      var (ct, tag) := c.seal(key, iv, plaintext);
      Ok(Envelope(iv, ct, tag))
  }

  function Decrypt(c: Cipher, blob: bytes, key: bytes): Result<bytes> {
    if |key| != 32 then Err(BadKeyLength)
    else if |blob| < MIN_LENGTH then Err(TooShort)
    else if blob[0] != ENVELOPE_VERSION then Err(UnsupportedVersion)
    else
      match c.open(key, IvOf(blob), CiphertextOf(blob), TagOf(blob))
      case None => Err(AuthenticationFailed)
      case Some(p) => Ok(p)
  }

  /** The parts read back from an envelope are the parts written, wherever the ciphertext ends. */
  lemma EnvelopeParts(iv: bytes, ct: bytes, tag: bytes)
    requires |iv| == IV_LENGTH && |tag| == AUTH_TAG_LENGTH && ct != []
    ensures var blob := Envelope(iv, ct, tag);
      |blob| >= MIN_LENGTH && IvOf(blob) == iv && CiphertextOf(blob) == ct && TagOf(blob) == tag
    ensures Envelope(iv, ct, tag) == [0x01] + iv + ct + tag && IV_LENGTH == 12 && AUTH_TAG_LENGTH == 16
  {
  }

  /** And every blob long enough with the right version is the envelope of its parts. */
  lemma PartsEnvelope(blob: bytes)
    requires |blob| >= MIN_LENGTH
    ensures blob[0] == ENVELOPE_VERSION <==> blob == Envelope(IvOf(blob), CiphertextOf(blob), TagOf(blob))
    ensures |IvOf(blob)| == IV_LENGTH && |TagOf(blob)| == AUTH_TAG_LENGTH && CiphertextOf(blob) != []
  {
  }

  /** Whatever was drawn for the IV, what was encrypted comes back, byte for byte. */
  lemma RoundTrip(c: Cipher, plaintext: bytes, key: bytes, iv: bytes)
    requires Sealing(c) && |iv| == IV_LENGTH
    ensures Encrypt(c, plaintext, key, iv).Ok? <==> plaintext != [] && |key| == 32
    ensures Encrypt(c, plaintext, key, iv).Ok? ==> Decrypt(c, Encrypt(c, plaintext, key, iv).value, key) == Ok(plaintext)
  {
    if plaintext != [] && |key| == 32 {
      var (ct, tag) := c.seal(key, iv, plaintext);
      EnvelopeParts(iv, ct, tag);
    }
  }

  /** What decrypts is never empty, so it can be encrypted again. */
  lemma DecryptedNonEmpty(c: Cipher, blob: bytes, key: bytes)
    requires Sealing(c) && Decrypt(c, blob, key).Ok?
    ensures Decrypt(c, blob, key).value != []
  {
  }

  // -- Master keys -------------------------------------------------------------------------

  predicate IsHex(ch: char) { '0' <= ch <= '9' || 'a' <= ch <= 'f' || 'A' <= ch <= 'F' }

  function Nibble(ch: char): (n: nat)
    requires IsHex(ch)
    ensures n < 16
  {
    if '0' <= ch <= '9' then ch as int - '0' as int
    else if 'a' <= ch <= 'f' then ch as int - 'a' as int + 10
    else ch as int - 'A' as int + 10
  }

  predicate AllHex(s: string) { forall i | 0 <= i < |s| :: IsHex(s[i]) }

  function FromHex(s: string): bytes
    requires |s| % 2 == 0 && AllHex(s)
  {
    if s == [] then [] else [16 * Nibble(s[0]) + Nibble(s[1])] + FromHex(s[2..])
  }

  /** A byte written as two hex digits. */
  ghost function HexOf(b: byte): string {
    var digits := "0123456789abcdef";
    [digits[b as int / 16], digits[b as int % 16]]
  }

  ghost function ToHex(bs: bytes): (s: string)
    ensures |s| == 2 * |bs| && AllHex(s)
  {
    if bs == [] then [] else HexOf(bs[0]) + ToHex(bs[1..])
  }

  /** What is written as hex is read back. */
  lemma {:induction false} HexRoundTrip(bs: bytes)
    ensures FromHex(ToHex(bs)) == bs
  {
    if bs != [] {
      HexRoundTrip(bs[1..]);
      assert ToHex(bs)[2..] == ToHex(bs[1..]);
      DigitOf(bs[0] as int / 16);
      DigitOf(bs[0] as int % 16);
    }
  }

  /** The high digit comes first. */
  lemma HighDigitFirst()
    ensures FromHex("4e") == [0x4e]
  {
    assert "4e"[2..] == "" && FromHex("") == [];
  }

  lemma DigitOf(n: nat)
    requires n < 16
    ensures IsHex("0123456789abcdef"[n]) && Nibble("0123456789abcdef"[n]) == n
  {
  }

  predicate IsHexKey(masterKey: string) { |masterKey| == 64 && AllHex(masterKey) }

  /** `hkdf` stands for HKDF-SHA256 (RFC 5869) with the fixed salt and info. */
  function DeriveKey(hkdf: string -> bytes, masterKey: string): Result<bytes> {
    if masterKey == "" then Err(EmptyMasterKey)
    else if IsHexKey(masterKey) then Ok(FromHex(masterKey))
    else Ok(hkdf(masterKey))
  }

  lemma {:induction false} FromHexLength(s: string)
    requires |s| % 2 == 0 && AllHex(s)
    ensures |FromHex(s)| == |s| / 2
  {
    if s != [] {
      FromHexLength(s[2..]);
    }
  }

  /** Digit for digit the same values. */
  ghost predicate SameDigits(s: string, t: string)
    requires |s| == |t| && AllHex(s) && AllHex(t)
  {
    forall i | 0 <= i < |s| :: Nibble(s[i]) == Nibble(t[i])
  }

  lemma SameDigitsTail(s: string, t: string)
    requires |s| == |t| >= 2 && AllHex(s) && AllHex(t)
    ensures SameDigits(s, t) <==>
              Nibble(s[0]) == Nibble(t[0]) && Nibble(s[1]) == Nibble(t[1]) && SameDigits(s[2..], t[2..])
  {
    if SameDigits(s[2..], t[2..]) {
      forall i | 2 <= i < |s| ensures Nibble(s[i]) == Nibble(t[i]) {
        assert s[i] == s[2..][i - 2] && t[i] == t[2..][i - 2];
      }
    }
  }

  lemma SamePair(a: nat, b: nat, c: nat, d: nat)
    requires a < 16 && b < 16 && c < 16 && d < 16
    ensures 16 * a + b == 16 * c + d <==> a == c && b == d
  {
  }

  lemma SameCons(x: nat, xs: bytes, y: nat, ys: bytes)
    ensures [x] + xs == [y] + ys <==> x == y && xs == ys
  {
    if [x] + xs == [y] + ys {
      assert ([x] + xs)[0] == x && ([x] + xs)[1..] == xs;
      assert ([y] + ys)[0] == y && ([y] + ys)[1..] == ys;
    }
  }

  /** Hex strings stand for the same bytes exactly when their digits have the same values. */
  lemma {:induction false} SameHexIff(s: string, t: string)
    requires |s| == |t| && |s| % 2 == 0 && AllHex(s) && AllHex(t)
    ensures FromHex(s) == FromHex(t) <==> SameDigits(s, t)
  {
    if s != [] {
      SameHexIff(s[2..], t[2..]);
      SameDigitsTail(s, t);
      SamePair(Nibble(s[0]), Nibble(s[1]), Nibble(t[0]), Nibble(t[1]));
      assert FromHex(s) == [16 * Nibble(s[0]) + Nibble(s[1])] + FromHex(s[2..]);
      assert FromHex(t) == [16 * Nibble(t[0]) + Nibble(t[1])] + FromHex(t[2..]);
      SameCons(16 * Nibble(s[0]) + Nibble(s[1]), FromHex(s[2..]), 16 * Nibble(t[0]) + Nibble(t[1]), FromHex(t[2..]));
    }
  }
}
