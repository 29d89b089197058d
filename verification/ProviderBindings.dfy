/** The canonical form of a provider binding and its hash (vita-agent-protocol/src/lib.rs).

    The hash is a parameter: any function whose digests are 64 lower-case hexadecimal digits. */
module ProviderBindings {
  import opened Common
  import opened Separators

  const MAX_PROVIDER_BINDING_BYTES: nat := 256
  const SEPARATOR: char := '\U{001F}'

  datatype Configuration = Configuration(
    profileId: string, purpose: string, providerKind: string, baseUrl: string, model: string,
    credentialRef: string, credentialDestination: string)

  datatype Binding = Binding(
    sessionId: string, turnId: string, profileId: string, purpose: string, providerKind: string, baseUrl: string,
    model: string, credentialRef: string, credentialDestination: string, bindingHash: string)

  datatype Result<+T> = Ok(value: T) | InvalidField

  type Hash = string -> string

  // ---- Field validation -----------------------------------------------------------------------

  predicate ValidBoundedText(s: string, max: nat) {
    s != [] && ByteLength(s) <= max && forall i :: 0 <= i < |s| ==> !Control(s[i])
  }

  function Fields(b: Binding): (f: seq<string>)
    ensures |f| == 9
  {
    [b.sessionId, b.turnId, b.profileId, b.purpose, b.providerKind, b.baseUrl, b.model, b.credentialRef,
     b.credentialDestination]
  }

  predicate FieldsValid(b: Binding) {
    forall i :: 0 <= i < 9 ==> ValidBoundedText(Fields(b)[i], MAX_PROVIDER_BINDING_BYTES)
  }

  method ValidateWithoutHash(b: Binding) returns (ok: bool)
    ensures ok == FieldsValid(b)
  {
    var values := Fields(b);
    for i := 0 to 9
      invariant forall j :: 0 <= j < i ==> ValidBoundedText(values[j], MAX_PROVIDER_BINDING_BYTES)
    {
      if !ValidBoundedText(values[i], MAX_PROVIDER_BINDING_BYTES) {
        return false;
      }
    }
    return true;
  }

  // ---- Canonical form and hash -------------------------------------------------------------------

  /** `join("\u{1f}")`. */
  function Joined(fields: seq<string>): string
  {
    if fields == [] then []
    else if |fields| == 1 then fields[0]
    else fields[0] + ([SEPARATOR] + Joined(fields[1..]))
  }

  function ExpectedHash(hash: Hash, b: Binding): string
  {
    hash(Joined(Fields(b)))
  }

  predicate HexDigit(c: char) {
    '0' <= c <= '9' || 'a' <= c <= 'f' || 'A' <= c <= 'F'
  }

  predicate Digest(s: string) {
    |s| == 64 && forall i :: 0 <= i < 64 ==> HexDigit(s[i])
  }

  predicate Validates(hash: Hash, b: Binding) {
    FieldsValid(b) && Digest(b.bindingHash) && b.bindingHash == ExpectedHash(hash, b)
  }

  /** A field the protocol accepts: some text of at most 256 bytes without control characters. */
  predicate Accepted(s: string) {
    s != "" && ByteLength(s) <= 256 && forall i :: 0 <= i < |s| ==> !('\U{0000}' <= s[i] <= '\U{001F}' || '\U{007F}' <= s[i] <= '\U{009F}')
  }

  predicate AllAccepted(fields: seq<string>) {
    forall f :: f in fields ==> Accepted(f)
  }

  lemma FieldsExactly(b: Binding)
    ensures FieldsValid(b) <==> AllAccepted([b.sessionId, b.turnId, b.profileId, b.purpose, b.providerKind, b.baseUrl, b.model,
                                             b.credentialRef, b.credentialDestination])
  {
    var fields := [b.sessionId, b.turnId, b.profileId, b.purpose, b.providerKind, b.baseUrl, b.model, b.credentialRef, b.credentialDestination];
    assert Fields(b) == fields;
    assert forall s :: ValidBoundedText(s, MAX_PROVIDER_BINDING_BYTES) <==> Accepted(s);
    if FieldsValid(b) {
      forall f | f in fields ensures Accepted(f) {
        var i :| 0 <= i < 9 && fields[i] == f;
      }
    }
  }

  /** The canonical form, byte for byte: the nine fields with a 0x1f between. */
  lemma CanonicalExactly(b: Binding)
    ensures Joined(Fields(b)) == b.sessionId + (['\U{001F}'] + (b.turnId + (['\U{001F}'] + (b.profileId + (['\U{001F}'] + (b.purpose
              + (['\U{001F}'] + (b.providerKind + (['\U{001F}'] + (b.baseUrl + (['\U{001F}'] + (b.model + (['\U{001F}'] + (b.credentialRef
              + (['\U{001F}'] + b.credentialDestination)))))))))))))))
  {
    var f := Fields(b);
    assert f[1..][1..] == f[2..] && f[2..][1..] == f[3..] && f[3..][1..] == f[4..] && f[4..][1..] == f[5..] && f[5..][1..] == f[6..]
        && f[6..][1..] == f[7..] && f[7..][1..] == f[8..];
    assert Joined(f[8..]) == b.credentialDestination && Joined(f[7..]) == b.credentialRef + ([SEPARATOR] + Joined(f[8..]));
    assert Joined(f[6..]) == b.model + ([SEPARATOR] + Joined(f[7..])) && Joined(f[5..]) == b.baseUrl + ([SEPARATOR] + Joined(f[6..]));
    assert Joined(f[4..]) == b.providerKind + ([SEPARATOR] + Joined(f[5..])) && Joined(f[3..]) == b.purpose + ([SEPARATOR] + Joined(f[4..]));
    assert Joined(f[2..]) == b.profileId + ([SEPARATOR] + Joined(f[3..])) && Joined(f[1..]) == b.turnId + ([SEPARATOR] + Joined(f[2..]));
  }

  /** The hash of a validated binding is 64 hexadecimal digits, and that of its canonical form. */
  lemma ValidatesExactly(hash: Hash, b: Binding)
    ensures Validates(hash, b) <==>
              && FieldsValid(b) && |b.bindingHash| == 64
              && (forall i :: 0 <= i < 64 ==> var c := b.bindingHash[i]; '0' <= c <= '9' || 'a' <= c <= 'f' || 'A' <= c <= 'F')
              && b.bindingHash == hash(Joined(Fields(b)))
  {
  }

  function Unhashed(sessionId: string, turnId: string, c: Configuration): Binding
  {
    Binding(sessionId, turnId, c.profileId, c.purpose, c.providerKind, c.baseUrl, c.model, c.credentialRef,
            c.credentialDestination, "")
  }

  method Derive(hash: Hash, sessionId: string, turnId: string, c: Configuration) returns (r: Result<Binding>)
    ensures r.Ok? <==> FieldsValid(Unhashed(sessionId, turnId, c))
    ensures r.Ok? ==>
              && r.value.sessionId == sessionId && r.value.turnId == turnId && r.value.profileId == c.profileId
              && r.value.purpose == c.purpose && r.value.providerKind == c.providerKind && r.value.baseUrl == c.baseUrl
              && r.value.model == c.model && r.value.credentialRef == c.credentialRef
              && r.value.credentialDestination == c.credentialDestination
    ensures r.Ok? <==> AllAccepted([sessionId, turnId, c.profileId, c.purpose, c.providerKind, c.baseUrl, c.model,
                                    c.credentialRef, c.credentialDestination])
    ensures r.Ok? && Digest(r.value.bindingHash) ==> Validates(hash, r.value)
    ensures r.Ok? ==> r.value.bindingHash == ExpectedHash(hash, r.value)
  {
    var binding := Unhashed(sessionId, turnId, c);
    FieldsExactly(binding);
    var ok := ValidateWithoutHash(binding);
    if !ok {
      return InvalidField;
    }
    binding := binding.(bindingHash := ExpectedHash(hash, binding));
    return Ok(binding);
  }

  method Validate(hash: Hash, b: Binding) returns (ok: bool)
    ensures ok == Validates(hash, b)
  {
    ok := ValidateWithoutHash(b);
    if !ok || |b.bindingHash| != 64 {
      return false;
    }
    for i := 0 to 64
      invariant forall j :: 0 <= j < i ==> HexDigit(b.bindingHash[j])
    {
      if !HexDigit(b.bindingHash[i]) {
        return false;
      }
    }
    return b.bindingHash == ExpectedHash(hash, b);
  }

  // ---- Main results -----------------------------------------------------------------------------

  lemma ValidIsSeparable(s: string, max: nat)
    requires ValidBoundedText(s, max)
    ensures Free(s, SEPARATOR)
  {
  }

  /** Joining equally many fields without the separator is injective. */
  lemma {:induction false} JoinedDetermines(f: seq<string>, g: seq<string>)
    requires |f| == |g|
    requires forall i :: 0 <= i < |f| ==> Free(f[i], SEPARATOR) && Free(g[i], SEPARATOR)
    requires Joined(f) == Joined(g)
    ensures f == g
  {
    if |f| > 1 {
      SplitsOnce(f[0], Joined(f[1..]), g[0], Joined(g[1..]), SEPARATOR);
      JoinedDetermines(f[1..], g[1..]);
      assert f == [f[0]] + f[1..] && g == [g[0]] + g[1..];
    }
  }

  /** Main result: bindings with valid fields have the same canonical form exactly when they agree
      in all nine fields. */
  lemma CanonicalFormDetermines(a: Binding, b: Binding)
    requires FieldsValid(a) && FieldsValid(b)
    ensures Joined(Fields(a)) == Joined(Fields(b)) <==> Fields(a) == Fields(b)
  {
    if Joined(Fields(a)) == Joined(Fields(b)) {
      forall i | 0 <= i < 9 ensures Free(Fields(a)[i], SEPARATOR) && Free(Fields(b)[i], SEPARATOR) {
        ValidIsSeparable(Fields(a)[i], MAX_PROVIDER_BINDING_BYTES);
        ValidIsSeparable(Fields(b)[i], MAX_PROVIDER_BINDING_BYTES);
      }
      JoinedDetermines(Fields(a), Fields(b));
    }
  }

  /** The hash tells the canonical forms of these two bindings apart, if they differ. */
  predicate NoCollision(hash: Hash, a: Binding, b: Binding) {
    ExpectedHash(hash, a) == ExpectedHash(hash, b) ==> Joined(Fields(a)) == Joined(Fields(b))
  }

  /** Main result: unless their canonical forms collide, two validated bindings share a hash exactly
      when they are the same binding. */
  lemma HashCommits(hash: Hash, a: Binding, b: Binding)
    requires NoCollision(hash, a, b)
    requires Validates(hash, a) && Validates(hash, b)
    ensures a.bindingHash == b.bindingHash <==> a == b
  {
    if a.bindingHash == b.bindingHash {
      CanonicalFormDetermines(a, b);
      SameFields(a, b);
    }
  }

  lemma SameFields(a: Binding, b: Binding)
    requires Fields(a) == Fields(b)
    ensures a.(bindingHash := b.bindingHash) == b
  {
    assert Fields(a)[0] == Fields(b)[0] && Fields(a)[1] == Fields(b)[1] && Fields(a)[2] == Fields(b)[2]
        && Fields(a)[3] == Fields(b)[3] && Fields(a)[4] == Fields(b)[4] && Fields(a)[5] == Fields(b)[5]
        && Fields(a)[6] == Fields(b)[6] && Fields(a)[7] == Fields(b)[7] && Fields(a)[8] == Fields(b)[8];
  }

  /** So changing any field of a validated binding makes it fail validation. */
  lemma TamperedBindingFails(hash: Hash, a: Binding, b: Binding)
    requires NoCollision(hash, a, b)
    requires Validates(hash, a) && a.bindingHash == b.bindingHash && a != b
    ensures !Validates(hash, b)
  {
    if Validates(hash, b) {
      HashCommits(hash, a, b);
    }
  }

  /** A counterexample without validation: a separator inside a field makes two bindings share their
      canonical form. */
  lemma UnvalidatedFormIsAmbiguous(b: Binding)
    ensures var x := b.(sessionId := ['a', SEPARATOR, 'b'], turnId := "c"); var y := b.(sessionId := "a", turnId := ['b', SEPARATOR, 'c']);
            Joined(Fields(x)) == Joined(Fields(y)) && Fields(x) != Fields(y)
  {
    var x := b.(sessionId := ['a', SEPARATOR, 'b'], turnId := "c");
    var y := b.(sessionId := "a", turnId := ['b', SEPARATOR, 'c']);
    var tail := [SEPARATOR] + Joined(Fields(b)[2..]);
    assert Fields(x)[1..][1..] == Fields(b)[2..] && Fields(y)[1..][1..] == Fields(b)[2..];
    assert Joined(Fields(x)[1..]) == "c" + tail && Joined(Fields(y)[1..]) == ['b', SEPARATOR, 'c'] + tail;
    assert Joined(Fields(x)) == ['a', SEPARATOR, 'b', SEPARATOR, 'c'] + tail;
    assert Joined(Fields(y)) == ['a', SEPARATOR, 'b', SEPARATOR, 'c'] + tail;
    assert Fields(x)[0] != Fields(y)[0] by {
      assert |Fields(x)[0]| != |Fields(y)[0]|;
    }
  }
}
