// Key construction: the Redis key families and the object-storage keys.

module CacheKeys {
  const METADATA_PREFIX := "lfs:meta:"
  const SESSION_PREFIX := "lfs:session:"
  const BATCH_UPLOAD_PREFIX := "lfs:batch:upload:"
  const GITHUB_REPO_PREFIX := "lfs:oidc:github:repo:"
  const STATE_PREFIX := "lfs:oidc:state:"
  const JWKS_PREFIX := "lfs:oidc:jwks:"

  // Times to live, in seconds.
  const METADATA_TTL: nat := 1800
  const SESSION_TTL: nat := 86400
  const REPOSITORY_CACHE_TTL: nat := 300
  const STATE_TTL: nat := 600
  const JWKS_TTL: nat := 86400

  function MetadataKey(oid: string): string { METADATA_PREFIX + oid }

  function SessionKey(sessionID: string): string { SESSION_PREFIX + sessionID }

  function BatchUploadKey(oid: string): string { BATCH_UPLOAD_PREFIX + oid }

  function OIDCGitHubRepoKey(repository: string): string { GITHUB_REPO_PREFIX + repository }

  function OIDCStateKey(state: string): string { STATE_PREFIX + state }

  function OIDCJWKSKey(provider: string): string { JWKS_PREFIX + provider }

  datatype Family = Metadata | Session | BatchUpload | GitHubRepo | State | Jwks

  /** The key of `name` in a family. */
  function Key(family: Family, name: string): string {
    match family
    case Metadata => MetadataKey(name)
    case Session => SessionKey(name)
    case BatchUpload => BatchUploadKey(name)
    case GitHubRepo => OIDCGitHubRepoKey(name)
    case State => OIDCStateKey(name)
    case Jwks => OIDCJWKSKey(name)
  }

  function Prefix(family: Family): string {
    match family
    case Metadata => METADATA_PREFIX
    case Session => SESSION_PREFIX
    case BatchUpload => BATCH_UPLOAD_PREFIX
    case GitHubRepo => GITHUB_REPO_PREFIX
    case State => STATE_PREFIX
    case Jwks => JWKS_PREFIX
  }

  /** The keys as operators see them. */
  lemma KeyTexts(name: string)
    ensures Key(Metadata, name) == "lfs:meta:" + name && Key(Session, name) == "lfs:session:" + name
    ensures Key(BatchUpload, name) == "lfs:batch:upload:" + name && Key(State, name) == "lfs:oidc:state:" + name
    ensures Key(GitHubRepo, name) == "lfs:oidc:github:repo:" + name && Key(Jwks, name) == "lfs:oidc:jwks:" + name
  {
  }

  /** Two prefixes of different families differ at one of these positions, before either ends. */
  lemma PrefixesDiverge(f: Family, g: Family)
    requires f != g
    ensures exists i :: 0 <= i < |Prefix(f)| && i < |Prefix(g)| && Prefix(f)[i] != Prefix(g)[i]
  {
    var p, q := Prefix(f), Prefix(g);
    var i := if f.Metadata? || g.Metadata? || f.Session? || g.Session? || f.BatchUpload? || g.BatchUpload? then 4
      else 9;
    assert p[i] != q[i];
  }

  /** A key determines its family and its name: every key function is injective and no two
      families share a key, over all strings. */
  lemma KeysInjective(f: Family, x: string, g: Family, y: string)
    ensures Key(f, x) == Key(g, y) ==> f == g && x == y
  {
    assert Key(f, x) == Prefix(f) + x && Key(g, y) == Prefix(g) + y;
    if f != g {
      PrefixesDiverge(f, g);
      var i :| 0 <= i < |Prefix(f)| && i < |Prefix(g)| && Prefix(f)[i] != Prefix(g)[i];
      assert Key(f, x)[i] != Key(g, y)[i];
    } else if Key(f, x) == Key(g, y) {
      assert x == Key(f, x)[|Prefix(f)|..] == Key(g, y)[|Prefix(g)|..] == y;
    }
  }

  /** What family `g` sees of a flat store. */
  ghost predicate SameView<V>(s: map<string, V>, t: map<string, V>, g: Family) {
    forall y :: (Key(g, y) in s <==> Key(g, y) in t) && (Key(g, y) in s ==> s[Key(g, y)] == t[Key(g, y)])
  }

  /** A write or a delete in one family leaves the view of every other family as it was. */
  lemma FamiliesDoNotInterfere<V>(s: map<string, V>, f: Family, x: string, v: V, g: Family)
    requires f != g
    ensures SameView(s, s[Key(f, x) := v], g)
    ensures SameView(s, s - {Key(f, x)}, g)
  {
    forall y ensures Key(g, y) != Key(f, x) {
      KeysInjective(f, x, g, y);
    }
  }
}

module StorageKeys {
  import opened Prelude
  import opened Domain

  predicate IsHashAlgoChar(c: char) {
    'a' <= c <= 'z' || 'A' <= c <= 'Z' || '0' <= c <= '9' || c == '-'
  }

  predicate ContainsDotDot(s: string) {
    exists i :: 0 <= i < |s| - 1 && s[i] == '.' && s[i + 1] == '.'
  }

  predicate ValidateHashAlgo(hashAlgo: string) {
    hashAlgo != "" && !ContainsDotDot(hashAlgo) && forall i :: 0 <= i < |hashAlgo| ==> IsHashAlgoChar(hashAlgo[i])
  }

  predicate ValidateOID(oid: string) {
    oid != "" && |oid| >= 4 && forall i :: 0 <= i < |oid| ==> IsHexDigit(oid[i])
  }

  function GenerateStorageKey(oid: string, hashAlgo: string): Result<string, Error> {
    if !ValidateHashAlgo(hashAlgo) then Err(InvalidHashAlgorithm)
    else if !ValidateOID(oid) then Err(InvalidOID)
    else Ok("objects/" + hashAlgo + "/" + oid[0..2] + "/" + oid[2..4] + "/" + oid)
  }

  predicate IsLetterDigitOrHyphen(c: char) {
    'a' <= c <= 'z' || 'A' <= c <= 'Z' || c in "0123456789-"
  }

  /** What the generator accepts, and the key it makes. */
  lemma StorageKeyExactlyWhen(oid: string, hashAlgo: string)
    ensures var named := hashAlgo != "" && forall c :: c in hashAlgo ==> IsLetterDigitOrHyphen(c);
      var r := GenerateStorageKey(oid, hashAlgo);
      if !named then r == Err(InvalidHashAlgorithm)
      else if |oid| < 4 || exists c :: c in oid && !IsHexDigit(c) then r == Err(InvalidOID)
      else r == Ok("objects/" + hashAlgo + "/" + oid[0..2] + "/" + oid[2..4] + "/" + oid)
  {
    forall c ensures IsLetterDigitOrHyphen(c) <==> IsHashAlgoChar(c) {
      if '0' <= c <= '9' { assert "0123456789-"[c as int - '0' as int] == c; }
    }
    if forall c :: c in hashAlgo ==> IsHashAlgoChar(c) {
      assert !ContainsDotDot(hashAlgo) by {
        assert forall i :: 0 <= i < |hashAlgo| ==> hashAlgo[i] in hashAlgo;
      }
      assert hashAlgo != "" ==> ValidateHashAlgo(hashAlgo);
    }
    assert ValidateOID(oid) <==> |oid| >= 4 && forall c :: c in oid ==> IsHexDigit(c);
  }

  /** Different accepted (oid, hash algorithm) pairs never share a storage key. */
  lemma StorageKeyInjective(oid: string, algo: string, oid': string, algo': string)
    requires GenerateStorageKey(oid, algo).Ok?
    requires GenerateStorageKey(oid, algo) == GenerateStorageKey(oid', algo')
    ensures oid == oid' && algo == algo'
  {
    var tail, tail' := "/" + oid[0..2] + "/" + oid[2..4] + "/" + oid, "/" + oid'[0..2] + "/" + oid'[2..4] + "/" + oid';
    var k := "objects/" + algo + tail;
    assert k == GenerateStorageKey(oid, algo).value;
    assert k == "objects/" + algo' + tail' by {
      assert "objects/" + algo' + tail' == GenerateStorageKey(oid', algo').value;
    }
    SamePieces(algo, tail, algo', tail', k);
    assert oid == tail[7..] && oid' == tail'[7..];
  }

  lemma SamePieces(a: string, t: string, b: string, u: string, k: string)
    requires ValidateHashAlgo(a) && ValidateHashAlgo(b)
    requires t != "" && u != "" && t[0] == u[0] == '/' && k == "objects/" + a + t == "objects/" + b + u
    ensures a == b && t == u
  {
    SlashFree(a, t, b, u, k);
    SlashFree(b, u, a, t, k);
    assert a == k[8..8 + |a|] && b == k[8..8 + |b|];
    assert t == k[8 + |a|..] && u == k[8 + |b|..];
  }

  /** The algorithm part ends at the first slash after "objects/". */
  lemma SlashFree(a: string, t: string, b: string, u: string, k: string)
    requires ValidateHashAlgo(a) && ValidateHashAlgo(b)
    requires t != "" && t[0] == '/' && k == "objects/" + a + t == "objects/" + b + u
    ensures |b| <= |a|
  {
    assert k[8 + |a|] == '/';
    assert forall i :: 0 <= i < |b| ==> b[i] == k[8 + i];
  }

  /** The storage key of a registered object. */
  function ObjectKey(oid: OID): string {
    OIDsAreAccepted(oid);
    GenerateStorageKey(oid, DEFAULT_HASH_ALGORITHM).value
  }

  /** What NewOID and NewHashAlgorithm accept, the key generator accepts too. */
  lemma OIDsAreAccepted(oid: OID)
    ensures GenerateStorageKey(oid, DEFAULT_HASH_ALGORITHM).Ok?
  {
    assert ValidateHashAlgo("sha256");
  }

  lemma ObjectKeyInjective(oid: OID, oid': OID)
    ensures ObjectKey(oid) == ObjectKey(oid') ==> oid == oid'
  {
    OIDsAreAccepted(oid);
    OIDsAreAccepted(oid');
    if ObjectKey(oid) == ObjectKey(oid') {
      StorageKeyInjective(oid, DEFAULT_HASH_ALGORITHM, oid', DEFAULT_HASH_ALGORITHM);
    }
  }

  lemma ObjectKeyNotEmpty(oid: OID)
    ensures GenerateStorageKey(oid, DEFAULT_HASH_ALGORITHM) == Ok(ObjectKey(oid)) && ObjectKey(oid) != ""
  {
    OIDsAreAccepted(oid);
  }
}
