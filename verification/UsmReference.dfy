/**
 * What USM computes, against the words of RFC 3414, RFC 3826, RFC 7860 and the two key-extension drafts: initialisation
 * vectors and salts as numbers, keys as hashes of what, digests as which octets of which HMAC.
 */
module UsmReference {
  import opened Octets
  import opened Errors
  import opened Usm
  import opened V3Messages
  import BerIntegers

  //
  // Salts and initialisation vectors
  //

  /** Four octets standing for a number modulo 2^32, most significant first. */
  predicate Word(bs: octets, v: int) {
    |bs| == 4 && NumberOf(bs, 0x100) == v % 0x1_0000_0000
  }

  lemma BigEndianIsWord(v: int)
    ensures Word(BigEndian32(v), v)
  {
    BerIntegers.NumberOfFew(BigEndian32(v));
    Reassemble(v % 0x1_0000_0000);
  }

  /** Section 8.1.1.1 of RFC 3414: the boots count, then the counter's low half. RFC 3826: the whole counter. */
  lemma SaltTravels(p: PrivProtocol, boots: int32, salt: uint64)
    ensures var sent := PrivParams(p, boots, salt);
            && |sent| == 8
            && (p == Des ==> Word(sent[..4], boots) && Word(sent[4..], salt))
            && (p != Des ==> Word(sent[..4], salt / 0x1_0000_0000) && Word(sent[4..], salt))
  {
    hide BigEndian32;
    BigEndianIsWord(boots);
    BigEndianIsWord(salt);
    BigEndianIsWord(salt / 0x1_0000_0000);
    var sent := PrivParams(p, boots, salt);
    assert sent[4..] == BigEndian32(salt);
    assert sent[..4] == if p == Des then BigEndian32(boots) else BigEndian32(salt / 0x1_0000_0000);
  }

  /**
   * Section 8.1.1.1 of RFC 3414: the last eight octets of the key, the pre-IV, against the salt. Section 3.1.2.1 of RFC
   * 3826: the boots count, the time and the salt, one after the other.
   */
  predicate IvIs(p: PrivProtocol, privKey: octets, boots: int32, time: int32, privParams: octets, iv: octets) {
    if p == Des then
      && |iv| == 8 && |privKey| >= 16 && |privParams| == 8
      && forall i, k :: 0 <= i < 8 && 0 <= k < 8 ==>
           Bit(iv[i], k) == (Bit(privKey[8 + i], k) + Bit(privParams[i], k)) % 2
    else
      |iv| == 16 && Word(iv[..4], boots) && Word(iv[4..8], time) && iv[8..] == privParams
  }

  /** A bit of an octet, the least significant being the first. */
  function Bit(n: nat, k: nat): nat {
    if k == 0 then n % 2 else Bit(n / 2, k - 1)
  }

  lemma {:induction false} XorBit(a: nat, b: nat, n: nat, k: nat)
    requires k < n
    ensures Bit(XorBits(a, b, n), k) == (Bit(a, k) + Bit(b, k)) % 2
    decreases n
  {
    if k > 0 { XorBit(a / 2, b / 2, n - 1, k - 1); }
  }

  lemma IvMeans(p: PrivProtocol, privKey: octets, boots: int32, time: int32, privParams: octets)
    requires |privKey| >= PrivKeySize(p) > 0 && |privParams| == SALT_SIZE
    ensures IvIs(p, privKey, boots, time, privParams, MakeIv(p, privKey, boots, time, privParams))
  {
    hide BigEndian32, XorBits, Bit;
    var iv := MakeIv(p, privKey, boots, time, privParams);
    if p == Des {
      forall i, k | 0 <= i < 8 && 0 <= k < 8
        ensures Bit(iv[i], k) == (Bit(privKey[8 + i], k) + Bit(privParams[i], k)) % 2
      {
        XorBit(privKey[8 + i], privParams[i], 8, k);
      }
    } else {
      BigEndianIsWord(boots);
      BigEndianIsWord(time);
      assert iv[..4] == BigEndian32(boots) && iv[4..8] == BigEndian32(time) && iv[8..] == privParams;
    }
  }

  //
  // The privacy envelope
  //

  /** Octets of key a cipher needs: DES's eight and its pre-IV's eight, or AES's 128, 192 or 256 bits. */
  function KeyOctets(p: PrivProtocol): nat {
    match p
    case NoPriv => 0
    case Des => 8 + 8
    case Aes128 => 128 / 8
    case Aes192 => 192 / 8
    case Aes192C => 192 / 8
    case Aes256 => 256 / 8
    case Aes256C => 256 / 8
  }

  predicate Keyed(p: PrivProtocol, privKey: octets) {
    p != NoPriv && |privKey| >= KeyOctets(p)
  }

  /** Zeros up to a whole block of eight for DES; nothing for AES, which is a stream. */
  predicate PaddedTo(p: PrivProtocol, plaintext: octets, padded: octets) {
    && plaintext <= padded && (forall i :: |plaintext| <= i < |padded| ==> padded[i] == 0)
    && if p == Des then |padded| % 8 == 0 && |padded| < |plaintext| + 8 else |padded| == |plaintext|
  }

  /** What is encrypted and with what: the salt that travels, the IV it makes, and the padded plaintext. */
  ghost predicate SealedFrom(c: Crypto, p: PrivProtocol, privKey: octets, boots: int32, time: int32, plaintext: octets,
                             privParams: octets, r: Result<Sealed>)
  {
    exists iv: octets, padded: octets ::
      && IvIs(p, privKey, boots, time, privParams, iv) && PaddedTo(p, plaintext, padded)
      && r == match c.encrypt(p, privKey, iv, padded)
              case Ok(ciphertext) => Ok(Sealed(privParams, ciphertext))
              case Err(fault) => Err(fault)
  }

  lemma EncryptsWhat(c: Crypto, p: PrivProtocol, privKey: octets, boots: int32, time: int32, plaintext: octets,
                     salt: uint64)
    ensures var r := PrivEncrypt(c, p, privKey, boots, time, plaintext, salt);
            && (!Keyed(p, privKey) ==> r == Err(UnsupportedPrivProtocol))
            && (Keyed(p, privKey) ==>
                  SealedFrom(c, p, privKey, boots, time, plaintext, PrivParams(p, boots, salt), r))
  {
    hide MakeIv, PrivParams, IvIs;
    if Keyed(p, privKey) {
      var privParams := PrivParams(p, boots, salt);
      IvMeans(p, privKey, boots, time, privParams);
      var iv := MakeIv(p, privKey, boots, time, privParams);
      var padded := if p == Des then plaintext + Padding(|plaintext|) else plaintext;
      assert PaddedTo(p, plaintext, padded);
      assert IvIs(p, privKey, boots, time, privParams, iv);
    }
  }

  /** What is decrypted and with what, and what is refused before the cipher sees it. */
  lemma DecryptsWhat(c: Crypto, p: PrivProtocol, privKey: octets, boots: int32, time: int32, privParams: octets,
                     ciphertext: octets)
    ensures var r := PrivDecrypt(c, p, privKey, boots, time, privParams, ciphertext);
            var whole := |privParams| == 8 && (p == Des ==> ciphertext != [] && |ciphertext| % 8 == 0);
            && (!Keyed(p, privKey) ==> r == Err(UnsupportedPrivProtocol))
            && (Keyed(p, privKey) && !whole ==> r == Err(DecryptionFailed))
            && (Keyed(p, privKey) && whole ==>
                  exists iv: octets :: IvIs(p, privKey, boots, time, privParams, iv)
                                       && r == c.decrypt(p, privKey, iv, ciphertext))
  {
    hide MakeIv, IvIs;
    if Keyed(p, privKey) && |privParams| == 8 {
      IvMeans(p, privKey, boots, time, privParams);
    }
  }

  //
  // Keys
  //

  /** Appendix A.2 of RFC 3414: the password over and over, to a megabyte. */
  predicate Megabyte(password: octets, big: octets) {
    && password != [] && |big| == 1024 * 1024
    && forall i :: 0 <= i < |big| ==> big[i] == password[i % |password|]
  }

  /** Section 2.6 of RFC 3414: the hash of the engineID between two copies of the hashed megabyte. */
  ghost predicate KeyFrom(c: Crypto, p: AuthProtocol, password: octets, engineId: octets, key: octets) {
    exists big: octets ::
      Megabyte(password, big) && key == c.hash(p, c.hash(p, big) + engineId + c.hash(p, big))
  }

  /** An authentication key, or why there is none; under the privacy password, the start of a privacy key. */
  lemma PasswordKey(c: Crypto, p: AuthProtocol, password: octets, engineId: octets)
    ensures var r := PasswordLocalized(c, p, password, engineId);
            && (p == NoAuth ==> r == Err(UnsupportedAuthProtocol))
            && (p != NoAuth && password == [] ==> r == Err(EmptyPassword))
            && (p != NoAuth && password != [] ==> r.Ok? && KeyFrom(c, p, password, engineId, r.value))
  {
    if p != NoAuth && password != [] {
      var big := Repeated(password, EXPANDED_PASSWORD_SIZE);
      assert Megabyte(password, big);
    }
  }

  lemma AuthKeyIs(c: Crypto, creds: Credentials, engineId: octets)
    ensures var r := LocalizedAuthKey(c, creds, engineId);
            && (creds.authProtocol == NoAuth ==> r == Err(UnsupportedAuthProtocol))
            && (creds.authProtocol != NoAuth && creds.authPassword == [] ==> r == Err(EmptyPassword))
            && (creds.authProtocol != NoAuth && creds.authPassword != [] ==>
                  r.Ok? && KeyFrom(c, creds.authProtocol, creds.authPassword, engineId, r.value))
  {
    hide PasswordLocalized, KeyFrom;
    PasswordKey(c, creds.authProtocol, creds.authPassword, engineId);
  }

  function Flat(blocks: seq<octets>): octets {
    if blocks == [] then [] else Flat(blocks[..|blocks| - 1]) + blocks[|blocks| - 1]
  }

  /**
   * The blocks a privacy key is cut from. The first is the localised key. Each later one is the hash of all before it
   * (draft-blumenthal-aes-usm-04), or the key localised from all before it as a password (draft-reeder-snmpv3-usm).
   */
  ghost predicate Chain(c: Crypto, p: AuthProtocol, reeder: bool, password: octets, engineId: octets,
                        blocks: seq<octets>) {
    && |blocks| >= 1 && KeyFrom(c, p, password, engineId, blocks[0])
    && forall i :: 1 <= i < |blocks| ==>
         if reeder then KeyFrom(c, p, Flat(blocks[..i]), engineId, blocks[i])
         else blocks[i] == c.hash(p, Flat(blocks[..i]))
  }

  lemma {:induction false} ExtendChain(c: Crypto, p: AuthProtocol, reeder: bool, password: octets, engineId: octets,
                                       blocks: seq<octets>, want: nat)
    returns (all: seq<octets>)
    requires Sound(c) && p != NoAuth && Chain(c, p, reeder, password, engineId, blocks) && Flat(blocks) != []
    ensures Chain(c, p, reeder, password, engineId, all)
    ensures Flat(all) == Extend(c, p, reeder, Flat(blocks), engineId, want)
    decreases want - |Flat(blocks)|
  {
    hide Chain, Sound, PasswordLocalized, Extension;
    var key := Flat(blocks);
    if |key| >= want {
      all := blocks;
    } else {
      ChainLonger(c, p, reeder, password, engineId, blocks);
      ExtensionGrows(c, p, reeder, key, engineId);
      all := ExtendChain(c, p, reeder, password, engineId, blocks + [Extension(c, p, reeder, key, engineId)], want);
    }
  }

  lemma ChainLonger(c: Crypto, p: AuthProtocol, reeder: bool, password: octets, engineId: octets, blocks: seq<octets>)
    requires p != NoAuth && Chain(c, p, reeder, password, engineId, blocks) && Flat(blocks) != []
    ensures var longer := blocks + [Extension(c, p, reeder, Flat(blocks), engineId)];
            && Chain(c, p, reeder, password, engineId, longer)
            && Flat(longer) == Flat(blocks) + Extension(c, p, reeder, Flat(blocks), engineId)
  {
    hide KeyFrom, PasswordLocalized;
    PasswordKey(c, p, Flat(blocks), engineId);
    var longer := blocks + [Extension(c, p, reeder, Flat(blocks), engineId)];
    assert longer[..|blocks|] == blocks;
    assert forall i :: 1 <= i < |blocks| ==> longer[..i] == blocks[..i];
  }

  lemma ExtensionGrows(c: Crypto, p: AuthProtocol, reeder: bool, key: octets, engineId: octets)
    requires Sound(c) && p != NoAuth && key != []
    ensures Extension(c, p, reeder, key, engineId) != []
  {
  }

  lemma OneBlock(first: octets)
    ensures Flat([first]) == first
  {
    var blocks := [first];
    assert blocks[..0] == [];
    assert [] + first == first;
  }

  /**
   * A privacy key is the front of such a chain, as long as the cipher needs, under the authentication protocol's
   * hash.
   */
  lemma PrivKeyIs(c: Crypto, creds: Credentials, engineId: octets)
    requires Sound(c)
    ensures var r, p := LocalizedPrivKey(c, creds, engineId), creds.authProtocol;
            && (creds.privProtocol == NoPriv ==> r == Err(UnsupportedPrivProtocol))
            && (creds.privProtocol != NoPriv && p == NoAuth ==> r == Err(UnsupportedAuthProtocol))
            && (creds.privProtocol != NoPriv && p != NoAuth && creds.privPassword == [] ==> r == Err(EmptyPassword))
            && (creds.privProtocol != NoPriv && p != NoAuth && creds.privPassword != [] ==>
                  && r.Ok? && |r.value| == KeyOctets(creds.privProtocol)
                  && exists blocks ::
                       && Chain(c, p, creds.privProtocol == Aes192C || creds.privProtocol == Aes256C,
                                creds.privPassword,
                                engineId, blocks)
                       && r.value <= Flat(blocks))
  {
    hide Sound, PasswordLocalized, KeyFrom, Extend;
    PasswordKey(c, creds.authProtocol, creds.privPassword, engineId);
    if creds.privProtocol != NoPriv && creds.authProtocol != NoAuth && creds.privPassword != [] {
      Localized(c, creds, engineId);
      var first := PasswordLocalized(c, creds.authProtocol, creds.privPassword, engineId).value;
      OneBlock(first);
      var blocks := ExtendChain(c, creds.authProtocol, IsReeder(creds.privProtocol), creds.privPassword, engineId,
                                [first],
                                KeyOctets(creds.privProtocol));
    }
  }

  //
  // Digests
  //

  /** Bits of the hashes: RFC 1321, FIPS 180-4. */
  lemma HashWidths()
    ensures KeySize(Md5) == 128 / 8 && KeySize(Sha1) == 160 / 8 && KeySize(Sha224) == 224 / 8
    ensures KeySize(Sha256) == 256 / 8 && KeySize(Sha384) == 384 / 8 && KeySize(Sha512) == 512 / 8
  {
  }

  /** Sections 6.3.1 and 7.3.1 of RFC 3414 keep 96 bits; section 4 of RFC 7860 keeps 128, 192, 256 and 384. */
  function DigestOctets(p: AuthProtocol): nat {
    match p
    case NoAuth => 0
    case Md5 => 96 / 8
    case Sha1 => 96 / 8
    case Sha224 => 128 / 8
    case Sha256 => 192 / 8
    case Sha384 => 256 / 8
    case Sha512 => 384 / 8
  }

  /** The digest is the front of the HMAC. */
  lemma DigestIs(c: Crypto, p: AuthProtocol, key: octets, message: octets)
    requires Sound(c)
    ensures var r := AuthDigest(c, p, key, message);
            && (p == NoAuth ==> r == Err(UnsupportedAuthProtocol))
            && (p != NoAuth ==> r.Ok? && |r.value| == DigestOctets(p) && r.value <= c.hmac(p, key, message))
  {
    HashWidths();
  }

  /** A datagram with the octets of its digest zeroed. */
  predicate Zeroed(datagram: octets, offset: nat, n: nat, blank: octets) {
    && |blank| == |datagram| && offset + n <= |datagram|
    && forall i :: 0 <= i < |blank| ==> blank[i] == if offset <= i < offset + n then 0 else datagram[i]
  }

  lemma BlankedIs(datagram: octets, offset: nat, n: nat)
    requires offset + n <= |datagram|
    ensures forall blank :: Zeroed(datagram, offset, n, blank) <==> blank == Blanked(datagram, offset, n)
  {
    forall blank | Zeroed(datagram, offset, n, blank) ensures blank == Blanked(datagram, offset, n) {}
  }

  /**
   * A digest verifies exactly when the message claims one, of its protocol's width, and it is the front of the HMAC of
   * the datagram with the digest's own octets zeroed.
   */
  lemma VerifiesMeans(c: Crypto, datagram: octets, msg: V3Message, auth: AuthProtocol, key: octets)
    requires Sound(c)
    ensures Verifies(c, datagram, msg, auth, key) <==>
              && msg.header.level != NoAuthNoPriv && auth != NoAuth
              && |msg.security.authParams| == DigestOctets(auth)
              && exists blank: octets ::
                   && Zeroed(datagram, msg.authParamsOffset, |msg.security.authParams|, blank)
                   && msg.security.authParams <= c.hmac(auth, key, blank)
  {
    hide Blanked, AuthDigest, Zeroed;
    var n := |msg.security.authParams|;
    if msg.authParamsOffset + n <= |datagram| {
      BlankedIs(datagram, msg.authParamsOffset, n);
      DigestIs(c, auth, key, Blanked(datagram, msg.authParamsOffset, n));
      var blank := Blanked(datagram, msg.authParamsOffset, n);
      assert Zeroed(datagram, msg.authParamsOffset, n, blank);
      FrontsAgree(msg.security.authParams, c.hmac(auth, key, blank), AuthDigest(c, auth, key, blank));
    } else {
      NoRoom(datagram, msg.authParamsOffset, n);
    }
  }

  lemma NoRoom(datagram: octets, offset: nat, n: nat)
    requires offset + n > |datagram|
    ensures forall blank :: !Zeroed(datagram, offset, n, blank)
  {
  }

  /** Two fronts of one string that are as long as each other are the same. */
  lemma FrontsAgree(a: octets, whole: octets, r: Result<octets>)
    requires r.Ok? ==> r.value <= whole
    ensures r.Ok? && |r.value| == |a| ==> (r == Ok(a) <==> a <= whole)
  {
    if r.Ok? && |r.value| == |a| && a <= whole {
      assert r.value == whole[..|a|] == a;
    }
  }
}
