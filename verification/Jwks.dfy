// JSON Web Keys: the number encoding, the search in a key set, and the cached fetcher.

/** Big-endian bytes of natural numbers, as big.Int reads and writes them. */
module BigEndian {
  type Byte = n: nat | n < 256

  function SetBytes(bytes: seq<Byte>): nat {
    if bytes == [] then 0 else SetBytes(bytes[..|bytes| - 1]) * 256 + bytes[|bytes| - 1]
  }

  function Bytes(n: nat): seq<Byte> {
    if n == 0 then [] else Bytes(n / 256) + [n % 256]
  }

  lemma {:induction false} BytesRoundTrip(n: nat)
    ensures SetBytes(Bytes(n)) == n
  {
    if n > 0 {
      BytesRoundTrip(n / 256);
      assert Bytes(n)[..|Bytes(n)| - 1] == Bytes(n / 256);
    }
  }

  /** Bytes is the shortest of all byte strings with that value. */
  lemma {:induction false} BytesIsMinimal(bytes: seq<Byte>)
    ensures |Bytes(SetBytes(bytes))| <= |bytes|
    ensures |Bytes(SetBytes(bytes))| == |bytes| <==> bytes == Bytes(SetBytes(bytes))
    ensures bytes == Bytes(SetBytes(bytes)) <==> bytes == [] || bytes[0] != 0
    decreases |bytes|
  {
    if bytes != [] {
      var front, last := bytes[..|bytes| - 1], bytes[|bytes| - 1];
      BytesIsMinimal(front);
      var n := SetBytes(bytes);
      assert n / 256 == SetBytes(front) && n % 256 == last;
      assert bytes == front + [last];
      if n > 0 {
        assert Bytes(n) == Bytes(SetBytes(front)) + [last];
        assert bytes == Bytes(n) ==> front == Bytes(n)[..|bytes| - 1];
      } else {
        assert SetBytes(front) == 0 && last == 0;
        assert Bytes(0) == [];
        if front != [] {
          assert bytes[0] == front[0];
        }
      }
    }
  }
}

/** Unpadded base64url (section 5 of RFC 4648), with the decoder's leniency: line breaks are skipped
    and the unused low bits of the last character are not looked at. */
module Base64Url {
  import opened Prelude
  import opened Domain
  import opened BigEndian

  function Digit(c: char): (d: Option<nat>)
    ensures d.Some? ==> d.value < 64
  {
    if 'A' <= c <= 'Z' then Some((c - 'A') as nat)
    else if 'a' <= c <= 'z' then Some((c - 'a') as nat + 26)
    else if '0' <= c <= '9' then Some((c - '0') as nat + 52)
    else if c == '-' then Some(62)
    else if c == '_' then Some(63)
    else None
  }

  function Char(d: nat): (c: char)
    requires d < 64
    ensures Digit(c) == Some(d)
  {
    if d < 26 then 'A' + d as char
    else if d < 52 then 'a' + (d - 26) as char
    else if d < 62 then '0' + (d - 52) as char
    else if d == 62 then '-' else '_'
  }

  function Encode(bytes: seq<Byte>): string {
    if |bytes| == 0 then ""
    else if |bytes| == 1 then [Char(bytes[0] / 4), Char(bytes[0] % 4 * 16)]
    else if |bytes| == 2 then
      [Char(bytes[0] / 4), Char(bytes[0] % 4 * 16 + bytes[1] / 16), Char(bytes[1] % 16 * 4)]
    else
      [Char(bytes[0] / 4), Char(bytes[0] % 4 * 16 + bytes[1] / 16), Char(bytes[1] % 16 * 4 + bytes[2] / 64),
       Char(bytes[2] % 64)] +
      Encode(bytes[3..])
  }

  /** The alphabet is that of section 5 of RFC 4648: three runs of consecutive characters, then the
      minus sign and the underline; and Digit and Char are inverse to each other. */
  lemma AlphabetIsTheStandards(d: nat, c: char)
    requires d < 64
    ensures Char(0) == 'A' && Char(26) == 'a' && Char(52) == '0' && Char(62) == '-' && Char(63) == '_'
    ensures d < 25 || 26 <= d < 51 || 52 <= d < 61 ==> Char(d + 1) as int == Char(d) as int + 1
    ensures Digit(c) == Some(d) <==> c == Char(d)
  {
  }

  /** The number of an alphabet character. */
  function SextetAt(s: string, i: nat): nat
    requires i < |s|
  {
    if Digit(s[i]).Some? then Digit(s[i]).value else 0
  }

  /** Three bytes are four characters that carry the same 24 bits, in the same order, and what is left
      over is padded with zero bits at the end. */
  lemma EncodingIsPositional(x: Byte, y: Byte, z: Byte, rest: seq<Byte>)
    ensures var s := Encode([x, y, z] + rest);
      && |s| >= 4 && s[4..] == Encode(rest)
      && SextetAt(s, 0) * 262144 + SextetAt(s, 1) * 4096 + SextetAt(s, 2) * 64 + SextetAt(s, 3) ==
         x * 65536 + y * 256 + z
    ensures var s := Encode([x, y]);
      |s| == 3 && SextetAt(s, 0) * 4096 + SextetAt(s, 1) * 64 + SextetAt(s, 2) == (x * 256 + y) * 4
    ensures var s := Encode([x]); |s| == 2 && SextetAt(s, 0) * 64 + SextetAt(s, 1) == x * 16
    ensures Encode([]) == ""
  {
    hide Char, Digit;
    assert ([x, y, z] + rest)[3..] == rest;
  }

  predicate LineBreak(c: char) { c == '\r' || c == '\n' }

  /** The input without line breaks. */
  function Unbroken(s: string): string {
    if s == "" then "" else (if LineBreak(s[0]) then "" else [s[0]]) + Unbroken(s[1..])
  }

  function DecodeDigits(d: seq<nat>): (r: Result<seq<Byte>, Error>)
    requires forall i :: 0 <= i < |d| ==> d[i] < 64
    ensures r.Ok? <==> |d| % 4 != 1
    ensures r.Ok? ==> |r.value| == |d| * 3 / 4
  {
    if |d| == 0 then Ok([])
    else if |d| == 1 then Err(InvalidBase64)
    else if |d| == 2 then Ok([d[0] * 4 + d[1] / 16])
    else if |d| == 3 then Ok([d[0] * 4 + d[1] / 16, d[1] % 16 * 16 + d[2] / 4])
    else
      match DecodeDigits(d[4..])
      case Err(e) => Err(e)
      case Ok(rest) => Ok([d[0] * 4 + d[1] / 16, d[1] % 16 * 16 + d[2] / 4, d[2] % 4 * 64 + d[3]] + rest)
  }

  predicate InAlphabet(s: string) {
    forall i :: 0 <= i < |s| ==> Digit(s[i]).Some?
  }

  function Digits(s: string): seq<nat>
    requires InAlphabet(s)
    ensures |Digits(s)| == |s| && forall i :: 0 <= i < |s| ==> Digits(s)[i] == Digit(s[i]).value
  {
    seq(|s|, i requires 0 <= i < |s| => Digit(s[i]).value)
  }

  function DecodeString(s: string): Result<seq<Byte>, Error> {
    var t := Unbroken(s);
    if !InAlphabet(t) then Err(InvalidBase64) else DecodeDigits(Digits(t))
  }

  /** Four sextets carry three bytes. */
  lemma Sextets(x: Byte, y: Byte, z: Byte)
    ensures var a, b, c, d := x / 4, x % 4 * 16 + y / 16, y % 16 * 4 + z / 64, z % 64;
      a * 4 + b / 16 == x && b % 16 * 16 + c / 4 == y && c % 4 * 64 + d == z
  {
  }

  /** One group of four characters in front of the rest. */
  lemma GroupDecodes(x: Byte, y: Byte, z: Byte, rest: string)
    requires InAlphabet(rest)
    ensures var s := [Char(x / 4), Char(x % 4 * 16 + y / 16), Char(y % 16 * 4 + z / 64), Char(z % 64)] + rest;
      && InAlphabet(s)
      && DecodeDigits(Digits(s)) ==
         match DecodeDigits(Digits(rest)) { case Err(e) => Err(e) case Ok(bytes) => Ok([x, y, z] + bytes) }
  {
    hide Char, Digit;
    var s := [Char(x / 4), Char(x % 4 * 16 + y / 16), Char(y % 16 * 4 + z / 64), Char(z % 64)] + rest;
    assert InAlphabet(s) by {
      forall i | 0 <= i < |s| ensures Digit(s[i]).Some? {
        if i >= 4 { assert s[i] == rest[i - 4]; }
      }
    }
    assert Digits(s)[4..] == Digits(rest);
    assert Digits(s)[..4] == [x / 4, x % 4 * 16 + y / 16, y % 16 * 4 + z / 64, z % 64];
    Sextets(x, y, z);
  }

  /** Up to two bytes at the end. */
  lemma TailDecodes(x: Byte, y: Byte)
    ensures InAlphabet(Encode([])) && DecodeDigits(Digits(Encode([]))) == Ok([])
    ensures InAlphabet(Encode([x])) && DecodeDigits(Digits(Encode([x]))) == Ok([x])
    ensures InAlphabet(Encode([x, y])) && DecodeDigits(Digits(Encode([x, y]))) == Ok([x, y])
  {
    hide Char, Digit;
    Sextets(x, y, 0);
    assert Digits(Encode([x])) == [x / 4, x % 4 * 16];
    assert Digits(Encode([x, y])) == [x / 4, x % 4 * 16 + y / 16, y % 16 * 4];
  }

  lemma {:induction false} EncodingIsClean(bytes: seq<Byte>)
    ensures InAlphabet(Encode(bytes)) && DecodeDigits(Digits(Encode(bytes))) == Ok(bytes)
    decreases |bytes|
  {
    hide Char, Digit, DecodeDigits, InAlphabet, Digits;
    if |bytes| == 0 {
      TailDecodes(0, 0);
    } else if |bytes| == 1 {
      TailDecodes(bytes[0], 0);
      assert bytes == [bytes[0]];
    } else if |bytes| == 2 {
      TailDecodes(bytes[0], bytes[1]);
      assert bytes == [bytes[0], bytes[1]];
    } else {
      EncodingIsClean(bytes[3..]);
      GroupDecodes(bytes[0], bytes[1], bytes[2], Encode(bytes[3..]));
      assert bytes == [bytes[0], bytes[1], bytes[2]] + bytes[3..];
    }
  }

  lemma {:induction false} AlphabetIsUnbroken(s: string)
    requires InAlphabet(s)
    ensures Unbroken(s) == s
  {
    if s != "" {
      assert Digit(s[0]).Some?;
      forall i | 0 <= i < |s| - 1 ensures Digit(s[1..][i]).Some? { assert s[1..][i] == s[i + 1]; }
      AlphabetIsUnbroken(s[1..]);
    }
  }

  /** Decoding inverts encoding. */
  lemma EncodingRoundTrip(bytes: seq<Byte>)
    ensures DecodeString(Encode(bytes)) == Ok(bytes)
  {
    EncodingIsClean(bytes);
    AlphabetIsUnbroken(Encode(bytes));
  }

  lemma {:induction false} BreaksVanish(s: string, t: string, c: char)
    requires LineBreak(c)
    ensures Unbroken(s + [c] + t) == Unbroken(s + t)
  {
    if s == "" {
      assert s + [c] + t == [c] + t && s + t == t;
      assert ([c] + t)[1..] == t;
    } else {
      BreaksVanish(s[1..], t, c);
      assert (s + [c] + t)[1..] == s[1..] + [c] + t && (s + t)[1..] == s[1..] + t;
    }
  }

  /** A line break anywhere makes no difference to what is decoded. */
  lemma LineBreaksAreSkipped(s: string, t: string, c: char)
    requires c == '\r' || c == '\n'
    ensures DecodeString(s + [c] + t) == DecodeString(s + t)
  {
    BreaksVanish(s, t, c);
  }
}

module Jwks {
  import opened Prelude
  import opened Domain
  import opened CacheKeys
  import opened RedisValues
  import opened Stores
  import opened Redis
  import opened BigEndian
  import opened Base64Url

  datatype PublicKey = PublicKey(n: nat, e: nat)

  /** The largest int64, which is also the largest int. */
  const MAX_EXPONENT: nat := 0x7FFF_FFFF_FFFF_FFFF

  function ParseRSAPublicKey(jwk: JWK): Result<PublicKey, Error> {
    match DecodeString(jwk.n)
    case Err(e) => Err(e)
    case Ok(nBytes) =>
      match DecodeString(jwk.e)
      case Err(e) => Err(e)
      case Ok(eBytes) =>
        var exponent := SetBytes(eBytes);
        if exponent > MAX_EXPONENT then Err(ExponentOutOfRange) else Ok(PublicKey(SetBytes(nBytes), exponent))
  }

  /** The key-set entry the key generator writes for a public key. */
  function JWKOf(kid: string, key: PublicKey): JWK {
    JWK(kid, "RSA", "sig", Encode(Bytes(key.n)), Encode(Bytes(key.e)))
  }

  /** Writing a key and parsing it gives the key back for every modulus and every exponent an int64
      can hold, and is refused for every larger exponent. */
  lemma KeyRoundTrip(kid: string, key: PublicKey)
    ensures ParseRSAPublicKey(JWKOf(kid, key)) ==
            if key.e <= 0x7FFF_FFFF_FFFF_FFFF then Ok(key) else Err(ExponentOutOfRange)
    ensures var jwk := JWKOf(kid, key); jwk.kid == kid && jwk.kty == "RSA" && jwk.use == "sig"
  {
    EncodingRoundTrip(Bytes(key.n));
    EncodingRoundTrip(Bytes(key.e));
    BytesRoundTrip(key.n);
    BytesRoundTrip(key.e);
  }

  // ---------- the search in a key set ----------

  predicate Matches(jwk: JWK, keyID: string) {
    jwk.kid == keyID && jwk.kty == "RSA"
  }

  /** The first match decides, also when it does not parse. */
  function FindPublicKey(keys: seq<JWK>, keyID: string): Result<PublicKey, Error> {
    if keys == [] then Err(KeyNotFound)
    else if Matches(keys[0], keyID) then ParseRSAPublicKey(keys[0])
    else FindPublicKey(keys[1..], keyID)
  }

  ghost predicate FirstMatch(keys: seq<JWK>, keyID: string, i: nat) {
    i < |keys| && Matches(keys[i], keyID) && forall j :: 0 <= j < i ==> !Matches(keys[j], keyID)
  }

  lemma {:induction false} FindIsFirstMatch(keys: seq<JWK>, keyID: string, i: nat)
    ensures FirstMatch(keys, keyID, i) ==> FindPublicKey(keys, keyID) == ParseRSAPublicKey(keys[i])
    ensures FindPublicKey(keys, keyID).Ok? ==> exists k: nat :: FirstMatch(keys, keyID, k)
    decreases |keys|
  {
    hide ParseRSAPublicKey;
    if keys != [] && Matches(keys[0], keyID) {
      assert FirstMatch(keys, keyID, 0);
    } else if keys != [] {
      FindIsFirstMatch(keys[1..], keyID, if i > 0 then i - 1 else 0);
      if FindPublicKey(keys, keyID).Ok? {
        var k: nat :| FirstMatch(keys[1..], keyID, k);
        assert FirstMatch(keys, keyID, k + 1);
      }
    }
  }

  /** The entry carries this key: modulus and exponent are its two fields, read as base64url and then
      as big-endian numbers, and the exponent is an int64. */
  predicate Carries(jwk: JWK, key: PublicKey) {
    var n, e := DecodeString(jwk.n), DecodeString(jwk.e);
    n.Ok? && e.Ok? && key.n == SetBytes(n.value) && key.e == SetBytes(e.value) && key.e <= 0x7FFF_FFFF_FFFF_FFFF
  }

  /** The first RSA entry of the set with the key id carries this key. */
  ghost predicate Serves(keySet: JWKSet, keyID: string, key: PublicKey) {
    exists i: nat ::
      && i < |keySet.keys| && keySet.keys[i].kid == keyID && keySet.keys[i].kty == "RSA"
      && (forall j :: 0 <= j < i && keySet.keys[j].kid == keyID ==> keySet.keys[j].kty != "RSA")
      && Carries(keySet.keys[i], key)
  }

  lemma ParsedExactlyWhenCarried(jwk: JWK, key: PublicKey)
    ensures ParseRSAPublicKey(jwk) == Ok(key) <==> Carries(jwk, key)
  {
    hide DecodeString, SetBytes;
  }

  lemma FoundExactlyWhenServed(keySet: JWKSet, keyID: string, key: PublicKey)
    ensures FindPublicKey(keySet.keys, keyID) == Ok(key) <==> Serves(keySet, keyID, key)
  {
    hide ParseRSAPublicKey, Carries;
    if FindPublicKey(keySet.keys, keyID) == Ok(key) {
      FindIsFirstMatch(keySet.keys, keyID, 0);
      var k: nat :| FirstMatch(keySet.keys, keyID, k);
      FindIsFirstMatch(keySet.keys, keyID, k);
      ParsedExactlyWhenCarried(keySet.keys[k], key);
    }
    if Serves(keySet, keyID, key) {
      var i: nat :| i < |keySet.keys| && keySet.keys[i].kid == keyID && keySet.keys[i].kty == "RSA" &&
        (forall j :: 0 <= j < i && keySet.keys[j].kid == keyID ==> keySet.keys[j].kty != "RSA") &&
        Carries(keySet.keys[i], key);
      assert FirstMatch(keySet.keys, keyID, i);
      FindIsFirstMatch(keySet.keys, keyID, i);
      ParsedExactlyWhenCarried(keySet.keys[i], key);
    }
  }

  /** A key is reported missing exactly if the set has no RSA entry with its id. */
  lemma {:induction false} MissingExactlyWhenUnpublished(keys: seq<JWK>, keyID: string)
    ensures FindPublicKey(keys, keyID) == Err(KeyNotFound) <==>
            forall i :: 0 <= i < |keys| ==> !(keys[i].kid == keyID && keys[i].kty == "RSA")
    decreases |keys|
  {
    hide DecodeString, SetBytes;
    if keys != [] {
      DecodingErrors(keys[0].n);
      DecodingErrors(keys[0].e);
      MissingExactlyWhenUnpublished(keys[1..], keyID);
      assert forall i :: 0 < i < |keys| ==> keys[i] == keys[1..][i - 1];
      assert forall i :: 0 <= i < |keys| - 1 ==> keys[1..][i] == keys[i + 1];
    }
  }

  lemma DecodingErrors(s: string)
    ensures DecodeString(s).Err? ==> DecodeString(s).error == InvalidBase64
  {
    if InAlphabet(Unbroken(s)) {
      DigitErrors(Digits(Unbroken(s)));
    }
  }

  lemma {:induction false} DigitErrors(d: seq<nat>)
    requires forall i :: 0 <= i < |d| ==> d[i] < 64
    ensures DecodeDigits(d).Err? ==> DecodeDigits(d).error == InvalidBase64
    decreases |d|
  {
    if |d| >= 4 {
      DigitErrors(d[4..]);
    }
  }

  /** A public key under its id. */
  datatype Published = Published(kid: string, key: PublicKey)

  function PublishedSet(keys: seq<Published>): seq<JWK> {
    if keys == [] then [] else [JWKOf(keys[0].kid, keys[0].key)] + PublishedSet(keys[1..])
  }

  /** A published set gives every id its own key. */
  lemma {:induction false} PublishedKeysAreFound(keys: seq<Published>, i: nat)
    requires i < |keys| && keys[i].key.e <= 0x7FFF_FFFF_FFFF_FFFF
    requires forall j, k :: 0 <= j < k < |keys| ==> keys[j].kid != keys[k].kid
    ensures FindPublicKey(PublishedSet(keys), keys[i].kid) == Ok(keys[i].key)
    decreases |keys|
  {
    hide ParseRSAPublicKey;
    assert PublishedSet(keys)[1..] == PublishedSet(keys[1..]);
    if i == 0 {
      KeyRoundTrip(keys[0].kid, keys[0].key);
    } else {
      assert forall j :: 0 <= j < |keys| - 1 ==> keys[1..][j] == keys[j + 1];
      PublishedKeysAreFound(keys[1..], i - 1);
    }
  }

  // ---------- the cached fetcher ----------

  datatype FetchFaults = FetchFaults(cacheRead: Fault, cacheWrite: Fault)

  /** The cached set a client can see. */
  function CachedSet(cache: Cache, provider: string, f: Fault): Option<JWKSet> {
    var key := OIDCJWKSKey(provider);
    if f == Fine && key in cache && cache[key].JwksV? then Some(cache[key].jwks) else None
  }

  /** GetPublicKey; `fetched` is what the endpoint answers, if asked. */
  function GetPublicKey(entries: Entries, now: nat, provider: string, keyID: string, fetched: Option<JWKSet>,
                        f: FetchFaults)
    : (Entries, Result<PublicKey, Error>)
  {
    var cached := CachedSet(Live(entries, now), provider, f.cacheRead);
    if cached.Some? && FindPublicKey(cached.value.keys, keyID).Ok? then
      (entries, FindPublicKey(cached.value.keys, keyID))
    else if fetched.None? then (entries, Err(FetchFailed))
    else
      (SetEntry(entries, now, OIDCJWKSKey(provider), JwksV(fetched.value), JWKS_TTL, f.cacheWrite),
       FindPublicKey(fetched.value.keys, keyID))
  }

  ghost predicate ServesSome(keySet: Option<JWKSet>, keyID: string) {
    keySet.Some? && exists key :: Serves(keySet.value, keyID, key)
  }

  /** A lookup succeeds exactly when the cached set or the endpoint's current set has a usable first
      match: whatever is cached, rotating the keys at the endpoint is enough. And the key it returns
      is one that set serves, from the cache when the cache can serve it. */
  lemma LookupSurvivesRotation(entries: Entries, now: nat, provider: string, keyID: string, fetched: Option<JWKSet>,
                               f: FetchFaults)
    ensures var cached := CachedSet(Live(entries, now), provider, f.cacheRead);
      var r := GetPublicKey(entries, now, provider, keyID, fetched, f).1;
      && (r.Ok? <==> ServesSome(cached, keyID) || ServesSome(fetched, keyID))
      && (r.Ok? && ServesSome(cached, keyID) ==> Serves(cached.value, keyID, r.value))
      && (r.Ok? && !ServesSome(cached, keyID) ==> Serves(fetched.value, keyID, r.value))
      && (r.Err? && fetched.None? ==> r.error == FetchFailed)
  {
    hide FindPublicKey, Serves, Live;
    var cached := CachedSet(Live(entries, now), provider, f.cacheRead);
    forall key: PublicKey, keySet: JWKSet
      ensures FindPublicKey(keySet.keys, keyID) == Ok(key) <==> Serves(keySet, keyID, key)
    {
      FoundExactlyWhenServed(keySet, keyID, key);
    }
    if cached.Some? && FindPublicKey(cached.value.keys, keyID).Ok? {
      assert Serves(cached.value, keyID, FindPublicKey(cached.value.keys, keyID).value);
    } else if fetched.Some? && FindPublicKey(fetched.value.keys, keyID).Ok? {
      assert Serves(fetched.value, keyID, FindPublicKey(fetched.value.keys, keyID).value);
    }
  }

  class JWKSFetcher {
    const cacheClient: RedisClient

    constructor (cacheClient: RedisClient)
      ensures this.cacheClient == cacheClient
    {
      this.cacheClient := cacheClient;
    }

    method FindKey(jwkSet: JWKSet, keyID: string) returns (r: Result<PublicKey, Error>)
      ensures r == FindPublicKey(jwkSet.keys, keyID)
    {
      hide ParseRSAPublicKey;
      var keys := jwkSet.keys;
      var i := 0;
      while i < |keys|
        invariant 0 <= i <= |keys|
        invariant FindPublicKey(keys, keyID) == FindPublicKey(keys[i..], keyID)
      {
        if keys[i].kid == keyID && keys[i].kty == "RSA" {
          return ParseRSAPublicKey(keys[i]);
        }
        assert keys[i..][1..] == keys[i + 1..];
        i := i + 1;
      }
      return Err(KeyNotFound);
    }

    method GetKey(keyID: string, provider: string, fetched: Option<JWKSet>, f: FetchFaults)
      returns (r: Result<PublicKey, Error>)
      modifies cacheClient`entries
      ensures (cacheClient.entries, r) == GetPublicKey(old(cacheClient.entries), cacheClient.now, provider, keyID,
                                                       fetched, f)
    {
      var cacheKey := OIDCJWKSKey(provider);
      var cached := cacheClient.Get(cacheKey, f.cacheRead);
      if cached.Ok? && cached.value.JwksV? {
        r := FindKey(cached.value.jwks, keyID);
        if r.Ok? {
          return;
        }
      }
      if fetched.None? {
        return Err(FetchFailed);
      }
      var _ := cacheClient.Set(cacheKey, JwksV(fetched.value), JWKS_TTL, f.cacheWrite);
      r := FindKey(fetched.value, keyID);
    }
  }
}
