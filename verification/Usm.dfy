/**
 * The User-based Security Model: key derivation and its two extensions, the privacy envelope, the digest, and the cache
 * the derived keys live in. Hash, HMAC and cipher are parameters.
 */
module Usm {
  import opened Octets
  import opened Errors

  datatype AuthProtocol = NoAuth | Md5 | Sha1 | Sha224 | Sha256 | Sha384 | Sha512
  datatype PrivProtocol = NoPriv | Des | Aes128 | Aes192 | Aes256 | Aes192C | Aes256C
  datatype SecurityLevel = NoAuthNoPriv | AuthNoPriv | AuthPriv

  datatype Credentials = Credentials(
    userName: octets,
    level: SecurityLevel,
    authProtocol: AuthProtocol,
    authPassword: octets,
    privProtocol: PrivProtocol,
    privPassword: octets)

  predicate IsAuthenticated(l: SecurityLevel) {
    l != NoAuthNoPriv
  }

  predicate IsEncrypted(l: SecurityLevel) {
    l == AuthPriv
  }

  /** Octets the protocol's hash produces. */
  function KeySize(p: AuthProtocol): nat {
    match p
    case NoAuth => 0
    case Md5 => 16
    case Sha1 => 20
    case Sha224 => 28
    case Sha256 => 32
    case Sha384 => 48
    case Sha512 => 64
  }

  /** Octets of the digest in a message: RFC 3414 sections 6.3.1 and 7.3.1, RFC 7860 section 4.2. */
  function AuthParamsSize(p: AuthProtocol): nat {
    match p
    case NoAuth => 0
    case Md5 => 12
    case Sha1 => 12
    case Sha224 => 16
    case Sha256 => 24
    case Sha384 => 32
    case Sha512 => 48
  }

  /** Octets of key material the cipher takes, DES counting its pre-IV. */
  function PrivKeySize(p: PrivProtocol): nat {
    match p
    case NoPriv => 0
    case Des => 16
    case Aes128 => 16
    case Aes192 => 24
    case Aes192C => 24
    case Aes256 => 32
    case Aes256C => 32
  }

  const EXPANDED_PASSWORD_SIZE: nat := 1048576
  const CHUNK_SIZE: nat := 64
  const DES_BLOCK_SIZE: nat := 8
  const SALT_SIZE: nat := 8

  /** The primitives a cryptographic library supplies. */
  datatype Crypto = Crypto(
    hash: (AuthProtocol, octets) -> octets,
    hmac: (AuthProtocol, octets, octets) -> octets,
    encrypt: (PrivProtocol, octets, octets, octets) -> Result<octets>,
    decrypt: (PrivProtocol, octets, octets, octets) -> Result<octets>)

  /** Hashes have their width, and what was encrypted decrypts, under the same key and IV. */
  ghost predicate Sound(c: Crypto) {
    && (forall p, x :: |c.hash(p, x)| == KeySize(p))
    && (forall p, k, m :: |c.hmac(p, k, m)| == KeySize(p))
    && (forall p, k, iv, x ::
          c.encrypt(p, k, iv, x).Ok? ==>
            && c.decrypt(p, k, iv, c.encrypt(p, k, iv, x).value) == Ok(x)
            && |c.encrypt(p, k, iv, x).value| == |x|)
  }

  //
  // Key derivation
  //

  /** The password repeated to `n` octets. */
  function Repeated(password: octets, n: nat): (r: octets)
    requires password != []
    ensures |r| == n
  {
    seq(n, i requires 0 <= i => password[i % |password|])
  }

  /** RFC 3414 appendix A.2: one megabyte of password, hashed once. */
  function MasterKey(c: Crypto, p: AuthProtocol, password: octets): Result<octets> {
    if p == NoAuth then Err(UnsupportedAuthProtocol)
    else if password == [] then Err(EmptyPassword)
    else Ok(c.hash(p, Repeated(password, EXPANDED_PASSWORD_SIZE)))
  }

  method PasswordToKey(c: Crypto, p: AuthProtocol, password: octets) returns (r: Result<octets>)
    ensures r == MasterKey(c, p, password)
  {
    if p == NoAuth { return Err(UnsupportedAuthProtocol); }
    if password == [] { return Err(EmptyPassword); }
    var fed: octets := [];
    var index, done := 0, 0;
    while done < EXPANDED_PASSWORD_SIZE
      invariant 0 <= done <= EXPANDED_PASSWORD_SIZE && done % CHUNK_SIZE == 0
      invariant index == done && fed == Repeated(password, done)
    {
      var chunk: octets := [];
      while |chunk| < CHUNK_SIZE
        invariant |chunk| <= CHUNK_SIZE && index == done + |chunk|
        invariant forall i :: 0 <= i < |chunk| ==> chunk[i] == password[(done + i) % |password|]
      {
        chunk := chunk + [password[index % |password|]];
        index := index + 1;
      }
      assert fed + chunk == Repeated(password, done + CHUNK_SIZE);
      fed := fed + chunk;
      done := done + CHUNK_SIZE;
    }
    return Ok(c.hash(p, fed));
  }

  /** RFC 3414 section 2.6: the key on both sides of the engineID. */
  function Localize(c: Crypto, p: AuthProtocol, master: octets, engineId: octets): Result<octets> {
    if p == NoAuth then Err(UnsupportedAuthProtocol) else Ok(c.hash(p, master + engineId + master))
  }

  function PasswordLocalized(c: Crypto, p: AuthProtocol, password: octets, engineId: octets): Result<octets> {
    var master :- MasterKey(c, p, password);
    Localize(c, p, master, engineId)
  }

  function LocalizedAuthKey(c: Crypto, creds: Credentials, engineId: octets): Result<octets> {
    PasswordLocalized(c, creds.authProtocol, creds.authPassword, engineId)
  }

  predicate IsReeder(p: PrivProtocol) {
    p == Aes192C || p == Aes256C
  }

  /** What one round appends: the hash of the key so far, or the key so far run through the derivation as a password. */
  function Extension(c: Crypto, p: AuthProtocol, reeder: bool, key: octets, engineId: octets): octets
    requires p != NoAuth && key != []
  {
    if reeder then PasswordLocalized(c, p, key, engineId).value else c.hash(p, key)
  }

  /** Rounds until there is enough key. */
  function Extend(c: Crypto, p: AuthProtocol, reeder: bool, key: octets, engineId: octets, want: nat): (r: octets)
    requires Sound(c) && p != NoAuth && key != []
    ensures |r| >= want && key <= r
    decreases want - |key|
  {
    if |key| >= want then key
    else Extend(c, p, reeder, key + Extension(c, p, reeder, key, engineId), engineId, want)
  }

  function LocalizedPrivKey(c: Crypto, creds: Credentials, engineId: octets): (r: Result<octets>)
    requires Sound(c)
    ensures r.Ok? ==> |r.value| == PrivKeySize(creds.privProtocol)
  {
    if PrivKeySize(creds.privProtocol) == 0 then Err(UnsupportedPrivProtocol)
    else
      var key :- PasswordLocalized(c, creds.authProtocol, creds.privPassword, engineId);
      var want := PrivKeySize(creds.privProtocol);
      Ok(Extend(c, creds.authProtocol, IsReeder(creds.privProtocol), key, engineId, want)[..want])
  }

  /** The extension loop: it ends, and with exactly the octets the cipher takes. */
  method DerivePrivKey(c: Crypto, creds: Credentials, engineId: octets) returns (r: Result<octets>)
    requires Sound(c)
    ensures r == LocalizedPrivKey(c, creds, engineId)
  {
    var want := PrivKeySize(creds.privProtocol);
    if want == 0 { return Err(UnsupportedPrivProtocol); }
    var p := creds.authProtocol;
    var master := PasswordToKey(c, p, creds.privPassword);
    if master.Err? { return Err(master.error); }
    var localized := Localize(c, p, master.value, engineId).value;
    var key := localized;
    var reeder := creds.privProtocol == Aes192C || creds.privProtocol == Aes256C;
    while |key| < want
      invariant key != [] && p != NoAuth
      invariant Extend(c, p, reeder, key, engineId, want) == Extend(c, p, reeder, localized, engineId, want)
      decreases want - |key|
    {
      var more: octets;
      if reeder {
        var next := PasswordToKey(c, p, key);
        more := Localize(c, p, next.value, engineId).value;
      } else {
        more := c.hash(p, key);
      }
      key := key + more;
    }
    return Ok(key[..want]);
  }

  /** Asking for less key gives a prefix of asking for more. */
  lemma {:induction false} ExtendPrefix(
    c: Crypto, p: AuthProtocol, reeder: bool, key: octets, engineId: octets, less: nat, more: nat)
    requires Sound(c) && p != NoAuth && key != [] && less <= more
    ensures Extend(c, p, reeder, key, engineId, less)[..less] == Extend(c, p, reeder, key, engineId, more)[..less]
    decreases less - |key|
  {
    if |key| >= less {
      var full := Extend(c, p, reeder, key, engineId, more);
      assert key <= full;
      assert full[..less] == full[..|key|][..less];
    } else {
      ExtendPrefix(c, p, reeder, key + Extension(c, p, reeder, key, engineId), engineId, less, more);
    }
  }

  /** Under one scheme and one set of secrets, every privacy key is a prefix of every longer one. */
  lemma PrivKeysNest(c: Crypto, creds: Credentials, engineId: octets, shorter: PrivProtocol, longer: PrivProtocol)
    requires Sound(c) && IsReeder(shorter) == IsReeder(longer)
    requires 0 < PrivKeySize(shorter) <= PrivKeySize(longer)
    ensures var a := LocalizedPrivKey(c, creds.(privProtocol := shorter), engineId);
            var b := LocalizedPrivKey(c, creds.(privProtocol := longer), engineId);
            && (a.Ok? <==> b.Ok?)
            && (a.Ok? ==> a.value <= b.value)
            && (a.Err? ==> a == b)
  {
    hide Sound;
    var key := PasswordLocalized(c, creds.authProtocol, creds.privPassword, engineId);
    if key.Ok? {
      Localized(c, creds, engineId);
      ExtendPrefix(c, creds.authProtocol, IsReeder(shorter), key.value, engineId, PrivKeySize(shorter),
                   PrivKeySize(longer));
    }
  }

  lemma Localized(c: Crypto, creds: Credentials, engineId: octets)
    requires Sound(c) && PasswordLocalized(c, creds.authProtocol, creds.privPassword, engineId).Ok?
    ensures creds.authProtocol != NoAuth
    ensures |PasswordLocalized(c, creds.authProtocol, creds.privPassword, engineId).value|
        == KeySize(creds.authProtocol)
  {
  }

  //
  // Privacy
  //

  /** The low 32 bits, most significant octet first. */
  function BigEndian32(v: int): (r: octets)
    ensures |r| == 4
  {
    var u := v % 0x1_0000_0000;
    [u / 0x100 / 0x100 / 0x100, u / 0x100 / 0x100 % 0x100, u / 0x100 % 0x100, u % 0x100]
  }

  function Xor(a: byte, b: byte): byte {
    XorBits(a, b, 8)
  }

  /** The low `n` bits, each the sum of the two bits modulo two. */
  function XorBits(a: nat, b: nat, n: nat): (r: nat)
    ensures r < TwoTo(n)
  {
    if n == 0 then 0 else 2 * XorBits(a / 2, b / 2, n - 1) + (a + b) % 2
  }

  function TwoTo(n: nat): nat {
    if n == 0 then 1 else 2 * TwoTo(n - 1)
  }

  /** The salt as it travels: boots and the counter's low half for DES, the whole counter for AES. */
  function PrivParams(p: PrivProtocol, boots: int32, salt: uint64): (r: octets)
    ensures |r| == SALT_SIZE
  {
    if p == Des then BigEndian32(boots) + BigEndian32(salt)
    else BigEndian32(salt / 0x1_0000_0000) + BigEndian32(salt)
  }

  /** RFC 3414 section 8.1.1.1 for DES, RFC 3826 section 3.1.2.1 for AES. */
  function MakeIv(p: PrivProtocol, privKey: octets, boots: int32, time: int32, privParams: octets): octets
    requires |privKey| >= PrivKeySize(p) > 0 && |privParams| == SALT_SIZE
  {
    if p == Des then seq(DES_BLOCK_SIZE, i requires 0 <= i < DES_BLOCK_SIZE => Xor(privKey[8 + i], privParams[i]))
    else BigEndian32(boots) + BigEndian32(time) + privParams
  }

  /** Zeros up to a whole block. */
  function Padding(n: nat): (pad: octets)
    ensures |pad| < DES_BLOCK_SIZE && (n + |pad|) % DES_BLOCK_SIZE == 0
    ensures forall i :: 0 <= i < |pad| ==> pad[i] == 0
  {
    seq((DES_BLOCK_SIZE - n % DES_BLOCK_SIZE) % DES_BLOCK_SIZE, _ => 0)
  }

  datatype Sealed = Sealed(privParams: octets, ciphertext: octets)

  function PrivEncrypt(c: Crypto, p: PrivProtocol, privKey: octets, boots: int32, time: int32, plaintext: octets,
                       salt: uint64): Result<Sealed>
  {
    if PrivKeySize(p) == 0 || |privKey| < PrivKeySize(p) then Err(UnsupportedPrivProtocol)
    else
      var privParams := PrivParams(p, boots, salt);
      var iv := MakeIv(p, privKey, boots, time, privParams);
      var padded := if p == Des then plaintext + Padding(|plaintext|) else plaintext;
      var ciphertext :- c.encrypt(p, privKey, iv, padded);
      Ok(Sealed(privParams, ciphertext))
  }

  function PrivDecrypt(c: Crypto, p: PrivProtocol, privKey: octets, boots: int32, time: int32, privParams: octets,
                       ciphertext: octets): Result<octets>
  {
    if |privKey| < PrivKeySize(p) || PrivKeySize(p) == 0 then Err(UnsupportedPrivProtocol)
    else if |privParams| != SALT_SIZE then Err(DecryptionFailed)
    else if p == Des && (ciphertext == [] || |ciphertext| % DES_BLOCK_SIZE != 0) then Err(DecryptionFailed)
    else c.decrypt(p, privKey, MakeIv(p, privKey, boots, time, privParams), ciphertext)
  }

  /**
   * From the message's own fields the receiver rebuilds the sender's IV and recovers the plaintext, DES with its pad
   * still on. It fails in exactly one case: an empty plaintext under DES, which a ScopedPDU never is.
   */
  lemma PrivacyRoundTrip(c: Crypto, p: PrivProtocol, privKey: octets, boots: int32, time: int32, plaintext: octets,
                         salt: uint64)
    requires Sound(c) && PrivEncrypt(c, p, privKey, boots, time, plaintext, salt).Ok?
    ensures var s := PrivEncrypt(c, p, privKey, boots, time, plaintext, salt).value;
            var plain := PrivDecrypt(c, p, privKey, boots, time, s.privParams, s.ciphertext);
            && (plain.Ok? <==> !(p == Des && plaintext == []))
            && (plain.Ok? ==> plain.value == plaintext + if p == Des then Padding(|plaintext|) else [])
  {
    hide MakeIv, PrivParams;
    var iv := MakeIv(p, privKey, boots, time, PrivParams(p, boots, salt));
    var padded := if p == Des then plaintext + Padding(|plaintext|) else plaintext;
    assert c.encrypt(p, privKey, iv, padded).Ok?;
    assert c.decrypt(p, privKey, iv, c.encrypt(p, privKey, iv, padded).value) == Ok(padded);
    assert plaintext + [] == plaintext;
  }

  /** The counter salts come from, shared by every Client in the process. */
  class SaltCounter {
    var counter: uint64

    constructor (start: uint64)
      ensures counter == start
    {
      counter := start;
    }

    method NextSalt() returns (salt: uint64)
      modifies this
      ensures salt == old(counter) && counter == (old(counter) as int + 1) % 0x1_0000_0000_0000_0000
    {
      salt := counter;
      counter := (counter as int + 1) % 0x1_0000_0000_0000_0000;
    }

    method Encrypt(c: Crypto, p: PrivProtocol, privKey: octets, boots: int32, time: int32, plaintext: octets)
      returns (r: Result<Sealed>)
      modifies this
      ensures r == PrivEncrypt(c, p, privKey, boots, time, plaintext, old(counter))
      ensures r.Ok? ==> counter == (old(counter) as int + 1) % 0x1_0000_0000_0000_0000
    {
      hide MakeIv, BigEndian32, Padding;
      if PrivKeySize(p) == 0 || |privKey| < PrivKeySize(p) { return Err(UnsupportedPrivProtocol); }
      var salt := NextSalt();
      var privParams: octets := seq(SALT_SIZE, _ => 0);
      if p == Des {
        privParams := BigEndian32(boots) + privParams[4..];
        privParams := privParams[..4] + BigEndian32(salt);
      } else {
        privParams := BigEndian32(salt / 0x1_0000_0000) + privParams[4..];
        privParams := privParams[..4] + BigEndian32(salt);
      }
      assert privParams == PrivParams(p, boots, salt);
      var iv := MakeIv(p, privKey, boots, time, privParams);
      var padded := plaintext;
      if p == Des {
        while |padded| % DES_BLOCK_SIZE != 0
          invariant |plaintext| <= |padded| <= |plaintext| + |Padding(|plaintext|)|
          invariant padded == plaintext + Padding(|plaintext|)[..|padded| - |plaintext|]
          invariant counter == (old(counter) as int + 1) % 0x1_0000_0000_0000_0000
          decreases |plaintext| + |Padding(|plaintext|)| - |padded|
        {
          PaddingEndsHere(|plaintext|, |padded|);
          ghost var pad, k := Padding(|plaintext|), |padded| - |plaintext|;
          assert pad[..k + 1] == pad[..k] + [0];
          padded := padded + [0];
        }
        PaddingEndsHere(|plaintext|, |padded|);
        assert padded == plaintext + Padding(|plaintext|);
      }
      var ciphertext := c.encrypt(p, privKey, iv, padded);
      if ciphertext.Err? { return Err(ciphertext.error); }
      return Ok(Sealed(privParams, ciphertext.value));
    }
  }

  lemma PaddingEndsHere(n: nat, m: nat)
    requires n <= m <= n + |Padding(n)|
    ensures m % DES_BLOCK_SIZE == 0 <==> m == n + |Padding(n)|
  {
  }

  lemma Reassemble(u: nat)
    ensures u == 0x100 * (0x100 * (0x100 * (u / 0x100 / 0x100 / 0x100) + u / 0x100 / 0x100 % 0x100)
                          + u / 0x100 % 0x100) + u % 0x100
  {
    assert u == 0x100 * (u / 0x100) + u % 0x100;
    var v := u / 0x100;
    assert v == 0x100 * (v / 0x100) + v % 0x100;
    var t := v / 0x100;
    assert t == 0x100 * (t / 0x100) + t % 0x100;
  }

  lemma BigEndianInjective(a: int, b: int)
    ensures BigEndian32(a) == BigEndian32(b) <==> a % 0x1_0000_0000 == b % 0x1_0000_0000
  {
    var x, y := BigEndian32(a), BigEndian32(b);
    if x == y {
      assert x[0] == y[0] && x[1] == y[1] && x[2] == y[2] && x[3] == y[3];
      Reassemble(a % 0x1_0000_0000);
      Reassemble(b % 0x1_0000_0000);
    }
  }

  /** Two messages share a salt only if the counter came round: all of it for AES, its low half for DES in one boot. */
  lemma SaltsDistinct(p: PrivProtocol, boots: int32, s: uint64, t: uint64)
    ensures PrivParams(p, boots, s) == PrivParams(p, boots, t)
       <==> if p == Des then s % 0x1_0000_0000 == t % 0x1_0000_0000 else s == t
  {
    hide BigEndian32;
    BigEndianInjective(s, t);
    BigEndianInjective(s / 0x1_0000_0000, t / 0x1_0000_0000);
    var x, y := PrivParams(p, boots, s), PrivParams(p, boots, t);
    assert x[4..] == BigEndian32(s) && y[4..] == BigEndian32(t);
    if p != Des {
      assert x[..4] == BigEndian32(s / 0x1_0000_0000) && y[..4] == BigEndian32(t / 0x1_0000_0000);
    }
  }

  //
  // Authentication
  //

  /** The HMAC of a whole message, cut to the protocol's width. */
  function AuthDigest(c: Crypto, p: AuthProtocol, key: octets, message: octets): (r: Result<octets>)
    ensures r.Ok? ==> |r.value| == AuthParamsSize(p)
  {
    if p == NoAuth then Err(UnsupportedAuthProtocol)
    else if AuthParamsSize(p) > |c.hmac(p, key, message)| then Err(CryptoFailure)
    else Ok(c.hmac(p, key, message)[..AuthParamsSize(p)])
  }

  lemma DigestAlwaysThere(c: Crypto, p: AuthProtocol, key: octets, message: octets)
    requires Sound(c)
    ensures AuthDigest(c, p, key, message).Ok? <==> p != NoAuth
  {
  }

  //
  // The cache
  //

  datatype CacheRow = CacheRow(engineId: octets, authProtocol: AuthProtocol, secret: octets, privProtocol: PrivProtocol)

  /** What a row stands for: without a privacy protocol it is an authentication key. */
  function Derived(c: Crypto, row: CacheRow): Result<octets>
    requires Sound(c)
  {
    var creds := Credentials([], AuthPriv, row.authProtocol, row.secret, row.privProtocol, row.secret);
    if row.privProtocol == NoPriv then LocalizedAuthKey(c, creds, row.engineId)
    else LocalizedPrivKey(c, creds, row.engineId)
  }

  class KeyCache {
    const crypto: Crypto
    var keys: map<CacheRow, octets>

    /** Every row holds the key that deriving it again would give. */
    ghost predicate Valid()
      reads this
    {
      Sound(crypto) && forall row :: row in keys ==> Derived(crypto, row) == Ok(keys[row])
    }

    constructor (c: Crypto)
      requires Sound(c)
      ensures Valid() && crypto == c && keys == map[]
    {
      crypto, keys := c, map[];
    }

    method LocalizedKey(creds: Credentials, engineId: octets) returns (r: Result<octets>)
      requires Valid()
      modifies this
      ensures Valid()
      ensures r == LocalizedAuthKey(crypto, creds, engineId)
      ensures forall row :: row in old(keys) ==> row in keys && keys[row] == old(keys)[row]
    {
      hide Sound, MasterKey;
      var row := CacheRow(engineId, creds.authProtocol, creds.authPassword, NoPriv);
      if row in keys { return Ok(keys[row]); }
      var derived := LocalizedAuthKey(crypto, creds, engineId);
      if derived.Err? { return derived; }
      keys := keys[row := derived.value];
      return derived;
    }

    /**
     * With a privacy protocol named, the key derived afresh, whatever was looked up before. Without one, an
     * authentication key of the same secret if there is one in the cache, and a refusal otherwise.
     */
    method LocalizedPrivacyKey(creds: Credentials, engineId: octets) returns (r: Result<octets>)
      requires Valid()
      modifies this
      ensures Valid()
      ensures creds.privProtocol != NoPriv ==> r == LocalizedPrivKey(crypto, creds, engineId)
      ensures creds.privProtocol == NoPriv ==>
                var row := CacheRow(engineId, creds.authProtocol, creds.privPassword, NoPriv);
                && keys == old(keys)
                && r == if row in keys then Derived(crypto, row) else Err(UnsupportedPrivProtocol)
      ensures forall row :: row in old(keys) ==> row in keys && keys[row] == old(keys)[row]
    {
      hide Sound, PasswordLocalized, Extend;
      var row := CacheRow(engineId, creds.authProtocol, creds.privPassword, creds.privProtocol);
      if row in keys { return Ok(keys[row]); }
      var derived := DerivePrivKey(crypto, creds, engineId);
      if derived.Err? { return derived; }
      keys := keys[row := derived.value];
      return derived;
    }
  }

  /** A lookup in the shared cache. */
  datatype Lookup = AuthLookup(creds: Credentials, engineId: octets) | PrivLookup(creds: Credentials, engineId: octets)

  function Afresh(c: Crypto, l: Lookup): Result<octets>
    requires Sound(c)
  {
    match l
    case AuthLookup(creds, engineId) => LocalizedAuthKey(c, creds, engineId)
    case PrivLookup(creds, engineId) => LocalizedPrivKey(c, creds, engineId)
  }

  /**
   * Any sequence of lookups, starting from an empty cache: each that names its protocol gives the key derived afresh.
   */
  method LookUpAll(c: Crypto, lookups: seq<Lookup>) returns (found: seq<Result<octets>>)
    requires Sound(c)
    ensures |found| == |lookups|
    ensures forall i :: 0 <= i < |lookups| && (lookups[i].PrivLookup? ==> lookups[i].creds.privProtocol != NoPriv) ==>
              found[i] == Afresh(c, lookups[i])
  {
    hide Sound, LocalizedAuthKey, LocalizedPrivKey, Derived;
    var cache := new KeyCache(c);
    found := [];
    for n := 0 to |lookups|
      invariant cache.Valid() && cache.crypto == c && fresh(cache)
      invariant |found| == n
      invariant forall i :: 0 <= i < n && (lookups[i].PrivLookup? ==> lookups[i].creds.privProtocol != NoPriv) ==>
        found[i] == Afresh(c, lookups[i])
    {
      var key;
      match lookups[n] {
        case AuthLookup(creds, engineId) => key := cache.LocalizedKey(creds, engineId);
        case PrivLookup(creds, engineId) => key := cache.LocalizedPrivacyKey(creds, engineId);
      }
      found := found + [key];
    }
  }

  /** What looking a privacy key up gives, in a cache with these rows. */
  function PrivacyLookup(c: Crypto, keys: map<CacheRow, octets>, creds: Credentials, engineId: octets): Result<octets>
    requires Sound(c)
  {
    var row := CacheRow(engineId, creds.authProtocol, creds.privPassword, creds.privProtocol);
    if row in keys then Ok(keys[row]) else LocalizedPrivKey(c, creds, engineId)
  }

  /**
   * The lookup agrees with deriving afresh exactly when a privacy protocol is named or no authentication row is in the
   * way.
   */
  lemma PrivacyLookupAgrees(c: Crypto, keys: map<CacheRow, octets>, creds: Credentials, engineId: octets)
    requires Sound(c) && forall row :: row in keys ==> Derived(c, row) == Ok(keys[row])
    ensures PrivacyLookup(c, keys, creds, engineId) == LocalizedPrivKey(c, creds, engineId)
       <==> creds.privProtocol != NoPriv
            || CacheRow(engineId, creds.authProtocol, creds.privPassword, NoPriv) !in keys
  {
    hide Sound, PasswordLocalized, Extend;
  }
}
