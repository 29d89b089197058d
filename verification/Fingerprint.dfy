/** The preimage of candidate fingerprints (src-tauri/src/candidate_memory_internal/fingerprint.rs).

    The hash itself is a parameter; a lemma that needs it assumes only that two texts do not collide. */
module Fingerprint {
  import opened Normalization
  import opened Separators

  datatype MemoryKind = Experience | Preference | Fact | Relationship | Goal | Skill | Other

  function KindName(kind: MemoryKind): string
  {
    match kind
    case Experience => "experience"
    case Preference => "preference"
    case Fact => "fact"
    case Relationship => "relationship"
    case Goal => "goal"
    case Skill => "skill"
    case Other => "other"
  }

  datatype Domain = Dedup | Rejection

  function DomainName(domain: Domain): string
  {
    if domain.Dedup? then "candidate-dedup-v1" else "candidate-rejection-suppression-v1"
  }

  const NUL: char := '\U{0000}'

  datatype Subject = Subject(domain: Domain, lifeId: string, subjectId: string, kind: MemoryKind)

  /** Everything the hasher is fed, in order. */
  function Preimage(s: Subject, normalized: string): string
  {
    DomainName(s.domain) + ([NUL] + s.lifeId) + ([NUL] + s.subjectId) + ([NUL] + KindName(s.kind)) + ([NUL] + normalized)
  }

  /** The layout, byte for byte: domain, life, subject, kind and content with a NUL between. */
  lemma LayoutExactly(s: Subject, normalized: string)
    ensures Preimage(s, normalized)
            == (match s.domain case Dedup => "candidate-dedup-v1" case Rejection => "candidate-rejection-suppression-v1")
               + ['\U{0000}'] + s.lifeId + ['\U{0000}'] + s.subjectId + ['\U{0000}']
               + (match s.kind
                  case Experience => "experience"
                  case Preference => "preference"
                  case Fact => "fact"
                  case Relationship => "relationship"
                  case Goal => "goal"
                  case Skill => "skill"
                  case Other => "other")
               + ['\U{0000}'] + normalized
  {
    var name := DomainName(s.domain);
    assert name + ([NUL] + s.lifeId) == name + [NUL] + s.lifeId;
    var life := name + [NUL] + s.lifeId;
    assert life + ([NUL] + s.subjectId) == life + [NUL] + s.subjectId;
    var subject := life + [NUL] + s.subjectId;
    assert subject + ([NUL] + KindName(s.kind)) == subject + [NUL] + KindName(s.kind);
    var kind := subject + [NUL] + KindName(s.kind);
    assert kind + ([NUL] + normalized) == kind + [NUL] + normalized;
  }

  /** The hasher as an object: it is fed piece by piece. */
  class Hasher {
    var fed: string
    const hash: string -> string

    constructor (hash: string -> string)
      ensures fed == [] && this.hash == hash
    {
      this.fed, this.hash := [], hash;
    }

    method Write(piece: string)
      modifies this
      ensures fed == old(fed) + piece
    {
      fed := fed + piece;
    }

    method Finalize() returns (digest: string)
      ensures digest == hash(fed)
    {
      return hash(fed);
    }
  }

  method ComputeFingerprint(hash: string -> string, s: Subject, content: string) returns (digest: string)
    ensures digest == hash(Preimage(s, Normalize(content)))
  {
    var normalized := Normalize(content);
    var hasher := new Hasher(hash);
    hasher.Write(DomainName(s.domain));
    hasher.Write([NUL] + s.lifeId);
    hasher.Write([NUL] + s.subjectId);
    hasher.Write([NUL] + KindName(s.kind));
    hasher.Write([NUL] + normalized);
    assert [] + DomainName(s.domain) == DomainName(s.domain);
    digest := hasher.Finalize();
  }

  // ---- What the preimage determines ---------------------------------------------------------------

  predicate NoNul(s: string) {
    Free(s, NUL)
  }

  lemma NamesHoldNoNul(domain: Domain, kind: MemoryKind)
    ensures NoNul(DomainName(domain)) && NoNul(KindName(kind))
  {
    DomainHoldsNoNul(domain);
  }

  lemma DomainHoldsNoNul(domain: Domain)
    ensures NoNul(DomainName(domain))
  {
  }

  lemma KindNamesDiffer(a: MemoryKind, b: MemoryKind)
    requires KindName(a) == KindName(b)
    ensures a == b
  {
    assert |KindName(a)| == |KindName(b)| && KindName(a)[0] == KindName(b)[0];
  }

  lemma Nested(s: Subject, n: string)
    ensures Preimage(s, n) == DomainName(s.domain) + ([NUL] + (s.lifeId + ([NUL] + (s.subjectId + ([NUL] + (KindName(s.kind) + ([NUL] + n)))))))
  {
  }

  /** Main result: when the ids hold no NUL, the preimage determines domain, life, subject, kind and
      normalized content.  The content itself may hold NULs. */
  lemma PreimageDetermines(s: Subject, n: string, t: Subject, m: string)
    requires NoNul(s.lifeId) && NoNul(s.subjectId) && NoNul(t.lifeId) && NoNul(t.subjectId)
    ensures Preimage(s, n) == Preimage(t, m) <==> s == t && n == m
  {
    if Preimage(s, n) == Preimage(t, m) {
      hide DomainName, KindName, Preimage;
      Nested(s, n);
      Nested(t, m);
      NamesHoldNoNul(s.domain, s.kind);
      NamesHoldNoNul(t.domain, t.kind);
      var s4, t4 := KindName(s.kind) + ([NUL] + n), KindName(t.kind) + ([NUL] + m);
      var s3, t3 := s.subjectId + ([NUL] + s4), t.subjectId + ([NUL] + t4);
      var s2, t2 := s.lifeId + ([NUL] + s3), t.lifeId + ([NUL] + t3);
      SplitsOnce(DomainName(s.domain), s2, DomainName(t.domain), t2, NUL);
      SplitsOnce(s.lifeId, s3, t.lifeId, t3, NUL);
      SplitsOnce(s.subjectId, s4, t.subjectId, t4, NUL);
      SplitsOnce(KindName(s.kind), n, KindName(t.kind), m, NUL);
      KindNamesDiffer(s.kind, t.kind);
      DomainNamesDiffer(s.domain, t.domain);
    }
  }

  lemma DomainNamesDiffer(a: Domain, b: Domain)
    requires DomainName(a) == DomainName(b)
    ensures a == b
  {
    assert |DomainName(a)| == |DomainName(b)|;
  }

  /** Dedup and rejection preimages never coincide, whatever the ids hold. */
  lemma DomainsNeverMeet(s: Subject, n: string, t: Subject, m: string)
    requires s.domain != t.domain
    ensures Preimage(s, n) != Preimage(t, m)
  {
    assert Preimage(s, n)[10] == DomainName(s.domain)[10];
    assert Preimage(t, m)[10] == DomainName(t.domain)[10];
  }

  /** The hash tells these two texts apart, if they differ. */
  predicate NoCollision(hash: string -> string, x: string, y: string) {
    hash(x) == hash(y) ==> x == y
  }

  /** Main result: unless their preimages collide, two contents of NUL-free ids share a fingerprint exactly
      when domain, ids and kind agree and the contents have the same mapped words. */
  lemma FingerprintsIdentify(hash: string -> string, s: Subject, content: string, t: Subject, other: string)
    requires NoCollision(hash, Preimage(s, Normalize(content)), Preimage(t, Normalize(other)))
    requires NoNul(s.lifeId) && NoNul(s.subjectId) && NoNul(t.lifeId) && NoNul(t.subjectId)
    ensures (hash(Preimage(s, Normalize(content))) == hash(Preimage(t, Normalize(other)))) <==>
            (s == t && MappedWords(Words(content)) == MappedWords(Words(other)))
  {
    PreimageDetermines(s, Normalize(content), t, Normalize(other));
    NormalizeIdentifies(content, other);
  }

  /** Conversely, a NUL in either id always makes the preimage ambiguous: some other pair of ids
      shares it, with the same domain, kind and content. */
  lemma NulMakesIdsAmbiguous(s: Subject, n: string) returns (t: Subject)
    requires !NoNul(s.lifeId) || !NoNul(s.subjectId)
    ensures t != s && t.domain == s.domain && t.kind == s.kind && Preimage(t, n) == Preimage(s, n)
  {
    if !NoNul(s.lifeId) {
      var i :| 0 <= i < |s.lifeId| && s.lifeId[i] == NUL;
      t := s.(lifeId := s.lifeId[..i], subjectId := s.lifeId[i + 1..] + ([NUL] + s.subjectId));
      assert s.lifeId == s.lifeId[..i] + ([NUL] + s.lifeId[i + 1..]);
      assert |t.lifeId| != |s.lifeId|;
    } else {
      var i :| 0 <= i < |s.subjectId| && s.subjectId[i] == NUL;
      t := s.(lifeId := s.lifeId + ([NUL] + s.subjectId[..i]), subjectId := s.subjectId[i + 1..]);
      assert s.subjectId == s.subjectId[..i] + ([NUL] + s.subjectId[i + 1..]);
      assert |t.lifeId| != |s.lifeId|;
    }
    assert ([NUL] + s.lifeId) + ([NUL] + s.subjectId) == ([NUL] + t.lifeId) + ([NUL] + t.subjectId);
    Grouped(s, n);
    Grouped(t, n);
  }

  lemma Grouped(s: Subject, n: string)
    ensures Preimage(s, n) == DomainName(s.domain) + (([NUL] + s.lifeId) + ([NUL] + s.subjectId)) + ([NUL] + KindName(s.kind)) + ([NUL] + n)
  {
  }
}
