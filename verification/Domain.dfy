// Value objects and entities of the domain layer (internal/domain).

module Prelude {
  datatype Option<+T> = None | Some(value: T)

  datatype Result<+T, +E> = Ok(value: T) | Err(error: E)
}

module Domain {
  import opened Prelude

  /** The errors the modelled code distinguishes. `StoreFailure` stands for any error a store reports;
      the `...Failed` errors are the ones the use cases wrap around another error. */
  datatype Error =
    | NotFound | PolicyNotFound | AuthorizationDenied | NilRepository | InvalidRepositoryFormat
    | InvalidOID | InvalidSize | InvalidHashAlgorithm | InvalidStorageKey | InvalidOperation | NoObjects
    | StoreFailure | AccessDenied | AuthorizationFailed | PolicySaveFailed
    | ObjectNotFound | SizeMismatch | NotUploaded | FindFailed | UpdateFailed
    | EmptySub | InvalidProvider | InvalidShell | InvalidRedirectURI | StateSaveFailed | InvalidCode | InvalidState
    | CodeExchangeFailed | UserInfoFailed | AccessCheckFailed | SessionFailed
    | InvalidBase64 | ExponentOutOfRange | FetchFailed | KeyNotFound

  // ---------- object ids, sizes, hash algorithms ----------

  predicate IsHexDigit(c: char) {
    'a' <= c <= 'f' || 'A' <= c <= 'F' || '0' <= c <= '9'
  }

  predicate ValidOID(s: string) {
    |s| == 64 && forall i :: 0 <= i < |s| ==> IsHexDigit(s[i])
  }

  /** An OID that went through NewOID. */
  type OID = s: string | ValidOID(s)
    witness seq(64, _ => '0')

  function NewOID(value: string): Result<OID, Error> {
    if ValidOID(value) then Ok(value) else Err(InvalidOID)
  }

  function NewSize(value: int): Result<nat, Error> {
    if value < 0 then Err(InvalidSize) else Ok(value)
  }

  const DEFAULT_HASH_ALGORITHM := "sha256"

  function NewHashAlgorithm(value: string): Result<string, Error> {
    if value == "" then Ok(DEFAULT_HASH_ALGORITHM)
    else if value != "sha256" then Err(InvalidHashAlgorithm)
    else Ok(value)
  }

  // ---------- operations and permissions ----------

  datatype Operation = Operation(value: string)

  const UPLOAD := Operation("upload")
  const DOWNLOAD := Operation("download")

  function ParseOperation(s: string): Result<Operation, Error> {
    if s == "download" then Ok(DOWNLOAD) else if s == "upload" then Ok(UPLOAD) else Err(InvalidOperation)
  }

  lemma OperationsAreParsed(s: string)
    ensures ParseOperation(s).Ok? <==> s in {"upload", "download"}
    ensures ParseOperation(s).Ok? ==> ParseOperation(s).value.value == s
  {
  }

  datatype Permissions = Permissions(admin: bool, push: bool, pull: bool, maintain: bool, triage: bool) {
    predicate CanUpload() { push || admin || maintain }

    predicate CanDownload() { pull || push || admin || maintain || triage }
  }

  // ---------- repository identifiers ----------

  datatype RepositoryIdentifier = RepositoryIdentifier(owner: string, name: string) {
    function FullName(): string { owner + "/" + name }

    predicate Valid() { owner != "" && name != "" && '/' !in owner && '/' !in name }
  }

  /** Identifiers exist only as results of NewRepositoryIdentifier. */
  type Repo = r: RepositoryIdentifier | r.Valid() witness RepositoryIdentifier("o", "n")

  function IndexOf(s: string, c: char): (i: nat)
    ensures i <= |s|
    ensures c !in s[..i]
    ensures i < |s| ==> s[i] == c
  {
    if s == "" || s[0] == c then 0 else 1 + IndexOf(s[1..], c)
  }

  /** The pieces of `s` between separators, as strings.Split returns them. */
  function Split(s: string, sep: char): seq<string>
    decreases |s|
  {
    var i := IndexOf(s, sep);
    if i == |s| then [s] else [s[..i]] + Split(s[i + 1..], sep)
  }

  function NewRepositoryIdentifier(fullName: string): Result<Repo, Error> {
    var parts := Split(fullName, '/');
    if |parts| != 2 then Err(InvalidRepositoryFormat)
    else if parts[0] == "" || parts[1] == "" then Err(InvalidRepositoryFormat)
    else
      SplitPieces(fullName, '/');
      Ok(RepositoryIdentifier(parts[0], parts[1]))
  }

  lemma {:induction false} SplitPieces(s: string, sep: char)
    ensures |Split(s, sep)| > 0
    ensures forall k :: 0 <= k < |Split(s, sep)| ==> sep !in Split(s, sep)[k]
    decreases |s|
  {
    var i := IndexOf(s, sep);
    assert s[..|s|] == s;
    if i < |s| {
      SplitPieces(s[i + 1..], sep);
    }
  }

  lemma {:induction false} IndexOfPrefix(p: string, c: char, rest: string)
    requires c !in p
    ensures IndexOf(p + [c] + rest, c) == |p|
  {
    var s := p + [c] + rest;
    if p != "" {
      assert s[1..] == p[1..] + [c] + rest;
      IndexOfPrefix(p[1..], c, rest);
    }
  }

  /** Parsing inverts FullName and accepts nothing else: the repository column of a policy row, the
      session's repository field and the OAuth state all come back as the identifier that was stored. */
  lemma RepositoryRoundTrip(s: string, r: RepositoryIdentifier)
    ensures NewRepositoryIdentifier(s) == Ok(r) <==> r.Valid() && s == r.FullName()
  {
    SplitPieces(s, '/');
    if NewRepositoryIdentifier(s) == Ok(r) {
      var i := IndexOf(s, '/');
      var rest := s[i + 1..];
      var j := IndexOf(rest, '/');
      SplitPieces(rest, '/');
      if j < |rest| {
        SplitPieces(rest[j + 1..], '/');
      }
      assert s == s[..i] + "/" + rest;
    }
    if r.Valid() && s == r.FullName() {
      IndexOfPrefix(r.owner, '/', r.name);
      assert s[..|r.owner|] == r.owner && s[|r.owner| + 1..] == r.name;
      var k := IndexOf(r.name, '/');
      assert k == |r.name|;
      assert Split(r.name, '/') == [r.name];
    }
  }

  // ---------- LFS object records ----------

  /** The fields of an LFS object. The same record is a row of `lfs_objects`, the cached metadata
      JSON and the state of a domain object; timestamps are left out. */
  datatype Meta = Meta(oid: string, size: int, hashAlgo: string, storageKey: string, uploaded: bool)

  /** What rowToDomain and the cache reader make of a stored record: it is validated again, and an
      empty hash algorithm becomes the default one. */
  function Reconstruct(m: Meta): Result<Meta, Error> {
    match NewOID(m.oid)
    case Err(e) => Err(e)
    case Ok(_) =>
      match NewSize(m.size)
      case Err(e) => Err(e)
      case Ok(_) =>
        match NewHashAlgorithm(m.hashAlgo)
        case Err(e) => Err(e)
        case Ok(h) => if m.storageKey == "" then Err(InvalidStorageKey) else Ok(m.(hashAlgo := h))
  }

  /** What a stored record may be: an oid is 64 hexadecimal digits, in either case; and read back it is
      the record that was stored, with the default algorithm where none was given. */
  lemma RecordsReadBackExactlyWhen(m: Meta)
    ensures ValidOID(m.oid) <==> |m.oid| == 64 && forall c :: c in m.oid ==> c in "0123456789abcdefABCDEF"
    ensures Reconstruct(m).Ok? <==>
            ValidOID(m.oid) && m.size >= 0 && m.hashAlgo in {"", "sha256"} && m.storageKey != ""
    ensures Reconstruct(m).Ok? ==> Reconstruct(m).value == m.(hashAlgo := "sha256")
  {
    forall c ensures IsHexDigit(c) <==> c in "0123456789abcdefABCDEF" {
      HexDigits(c);
    }
  }

  lemma HexDigits(c: char)
    ensures IsHexDigit(c) <==> c in "0123456789abcdefABCDEF"
  {
    if IsHexDigit(c) {
      var i := if '0' <= c <= '9' then (c - '0') as int else if 'a' <= c <= 'f' then (c - 'a') as int + 10
        else (c - 'A') as int + 16;
      assert "0123456789abcdefABCDEF"[i] == c;
    }
  }

  function MarkedUploaded(m: Meta): Meta {
    m.(uploaded := true)
  }

  /** The entity handed around by the use cases; `MarkAsUploaded` is its only mutation. */
  class LFSObject {
    const oid: string
    const size: int
    const hashAlgo: string
    const storageKey: string
    var uploaded: bool

    function Record(): Meta
      reads this
    {
      Meta(oid, size, hashAlgo, storageKey, uploaded)
    }

    constructor (m: Meta)
      ensures Record() == m
    {
      oid, size, hashAlgo, storageKey, uploaded := m.oid, m.size, m.hashAlgo, m.storageKey, m.uploaded;
    }

    method MarkAsUploaded()
      modifies this
      ensures Record() == MarkedUploaded(old(Record()))
    {
      uploaded := true;
    }
  }
}
