/**
 * StrongNameKeys: the key material used to give an assembly a strong name
 * (a key pair from a file, a key container name, or just a public key), or
 * the diagnostic produced while looking for it.
 */
module StrongNameKeys {
  import opened Wrappers

  /** An immutable byte array; None is the default (uninitialised) array. */
  type Bytes = Option<seq<bv8>>

  /** The messages these keys can produce. */
  datatype ErrorCode = BadCompilationOptionValue | PublicKeyContainerFailure | PublicKeyFileFailure

  /** A diagnostic, as the message provider creates it: a code and its message arguments. */
  datatype Diagnostic = Diagnostic(code: ErrorCode, arguments: seq<Option<string>>)

  datatype StrongNameKeys = StrongNameKeys(
    keyPair: Bytes,
    publicKey: Bytes,
    diagnostic: Option<Diagnostic>,
    keyContainer: Option<string>,
    keyFilePath: Option<string>)
  {
    /** The compilation can be signed: there is a key pair or a key container. */
    predicate CanSign()
    {
      keyPair.Some? || keyContainer.Some?
    }

    /** A strong name can be produced: the keys can sign, or at least the public key is known. */
    function CanProvideStrongName(): (r: bool)
      ensures r <==> CanSign() || publicKey.Some?
      ensures CanSign() ==> r
    {
      CanSign() || publicKey.Some?
    }
  }

  /** No keys at all. */
  const NoKeys: StrongNameKeys := StrongNameKeys(None, None, None, None, None)

  /** Keys that carry only the diagnostic explaining why there are none. */
  function FromDiagnostic(diagnostic: Diagnostic): (r: StrongNameKeys)
    ensures r.diagnostic == Some(diagnostic) && !r.CanProvideStrongName()
  {
    StrongNameKeys(None, None, Some(diagnostic), None, None)
  }

  /** A key pair comes from a file, never from a container. */
  function NewStrongNameKeys(keyPair: Bytes, publicKey: Bytes, keyContainerName: Option<string>, keyFilePath: Option<string>): (r: StrongNameKeys)
    requires keyContainerName.None? || keyPair.None?
    requires keyPair.None? || keyFilePath.Some?
    ensures r.keyPair == keyPair && r.publicKey == publicKey
    ensures r.keyContainer == keyContainerName && r.keyFilePath == keyFilePath && r.diagnostic.None?
  {
    StrongNameKeys(keyPair, publicKey, None, keyContainerName, keyFilePath)
  }

  function HexDigit(d: bv8): (c: char)
    requires d < 16
  {
    "0123456789ABCDEF"[d as int]
  }

  /** BitConverter.ToString: two upper-case hex digits per byte, separated by dashes. */
  function BitConverterToString(bytes: seq<bv8>): (r: string)
    ensures |bytes| > 0 ==> |r| == 3 * |bytes| - 1
    ensures |bytes| == 0 ==> r == ""
  {
    if |bytes| == 0 then ""
    else
      var b := bytes[|bytes| - 1];
      var pair := [HexDigit(b >> 4), HexDigit(b & 15)];
      if |bytes| == 1 then pair else BitConverterToString(bytes[..|bytes| - 1]) + "-" + pair
  }

  /**
   * Keys from an explicit public key. Whether the blob is a valid public key
   * is decided by metadata helpers outside these files, passed in as
   * `isValidPublicKey`.
   */
  function CreateFromPublicKey(publicKey: seq<bv8>, isValidPublicKey: seq<bv8> -> bool): (r: StrongNameKeys)
    requires |publicKey| > 0
    ensures isValidPublicKey(publicKey) ==> r == NewStrongNameKeys(None, Some(publicKey), None, None)
    ensures !isValidPublicKey(publicKey) ==>
      r == FromDiagnostic(Diagnostic(BadCompilationOptionValue, [Some("CryptoPublicKey"), Some(BitConverterToString(publicKey))]))
    ensures r.CanProvideStrongName() <==> isValidPublicKey(publicKey)
    ensures !r.CanSign()
  {
    if isValidPublicKey(publicKey) then NewStrongNameKeys(None, Some(publicKey), None, None)
    else FromDiagnostic(Diagnostic(BadCompilationOptionValue, [Some("CryptoPublicKey"), Some(BitConverterToString(publicKey))]))
  }

  function GetContainerError(name: Option<string>, message: string): (d: Diagnostic)
    ensures d.code == PublicKeyContainerFailure && d.arguments == [name, Some(message)]
  {
    Diagnostic(PublicKeyContainerFailure, [name, Some(message)])
  }

  function GetKeyFileError(path: Option<string>, message: string): (d: Diagnostic)
    ensures d.code == PublicKeyFileFailure && d.arguments == [path, Some(message)]
  {
    Diagnostic(PublicKeyFileFailure, [path, Some(message)])
  }

  /** A container name, when given, is what failed; otherwise the key file. */
  function GetError(keyFilePath: Option<string>, keyContainerName: Option<string>, message: string): (d: Diagnostic)
    ensures d.code == PublicKeyContainerFailure <==> keyContainerName.Some?
    ensures d.code == PublicKeyFileFailure <==> keyContainerName.None?
    ensures d.arguments == [if keyContainerName.Some? then keyContainerName else keyFilePath, Some(message)]
  {
    if keyContainerName.Some? then GetContainerError(keyContainerName, message)
    else GetKeyFileError(keyFilePath, message)
  }

  predicate IsNullOrEmpty(s: Option<string>)
  {
    s.None? || |s.value| == 0
  }

  /** A strong name provider: how it reads key files and containers is outside this model. */
  type Provider = (Option<string>, Option<string>) -> StrongNameKeys

  const AssemblySigningNotSupported: string := "AssemblySigningNotSupported"

  /**
   * Keys from a key file or container: none when neither is named, an error
   * when there is no provider to read them, else what the provider finds.
   */
  function Create(providerOpt: Option<Provider>, keyFilePath: Option<string>, keyContainerName: Option<string>): (r: StrongNameKeys)
    ensures IsNullOrEmpty(keyFilePath) && IsNullOrEmpty(keyContainerName) ==> r == NoKeys
    ensures !(IsNullOrEmpty(keyFilePath) && IsNullOrEmpty(keyContainerName)) && providerOpt.None? ==>
      r == FromDiagnostic(GetError(keyFilePath, keyContainerName, AssemblySigningNotSupported))
    ensures !(IsNullOrEmpty(keyFilePath) && IsNullOrEmpty(keyContainerName)) && providerOpt.Some? ==>
      r == providerOpt.value(keyFilePath, keyContainerName)
  {
    if IsNullOrEmpty(keyFilePath) && IsNullOrEmpty(keyContainerName) then NoKeys
    else if providerOpt.None? then FromDiagnostic(GetError(keyFilePath, keyContainerName, AssemblySigningNotSupported))
    else providerOpt.value(keyFilePath, keyContainerName)
  }

  /** Without a provider nothing can be signed, whatever is named. */
  lemma CreateWithoutProviderCannotSign(keyFilePath: Option<string>, keyContainerName: Option<string>)
    ensures !Create(None, keyFilePath, keyContainerName).CanProvideStrongName()
    ensures Create(None, keyFilePath, keyContainerName).diagnostic.Some?
            <==> !(IsNullOrEmpty(keyFilePath) && IsNullOrEmpty(keyContainerName))
  {
  }

  predicate IsHexDigit(c: char)
  {
    ('0' <= c <= '9') || ('a' <= c <= 'f') || ('A' <= c <= 'F')
  }

  /** A non-empty string of hex digit pairs. */
  predicate IsHexKeyString(s: string)
  {
    |s| > 0 && |s| % 2 == 0 && forall i :: 0 <= i < |s| ==> IsHexDigit(s[i])
  }

  /** The check on a public key given as text: an even, non-zero number of hex digits in either case. */
  method IsValidPublicKeyString(publicKey: Option<string>) returns (r: bool)
    ensures r <==> publicKey.Some? && IsHexKeyString(publicKey.value)
  {
    if IsNullOrEmpty(publicKey) || |publicKey.value| % 2 != 0 {
      return false;
    }
    var s := publicKey.value;
    for k := 0 to |s|
      invariant forall i :: 0 <= i < k ==> IsHexDigit(s[i])
    {
      var c := s[k];
      if !(c >= '0' && c <= '9') && !(c >= 'a' && c <= 'f') && !(c >= 'A' && c <= 'F') {
        return false;
      }
    }
    return true;
  }

  /** BitConverter's rendering is not itself a key string: for two or more bytes it contains dashes. */
  lemma {:induction false} BitConverterHasDashes(bytes: seq<bv8>)
    requires |bytes| >= 2
    ensures BitConverterToString(bytes)[2] == '-'
    decreases |bytes|
  {
    var prefix := bytes[..|bytes| - 1];
    if |bytes| > 2 {
      BitConverterHasDashes(prefix);
      assert BitConverterToString(bytes)[..|BitConverterToString(prefix)|] == BitConverterToString(prefix);
    }
  }
}
