/** The agent's evidence list: one entry per identity, and citation indices that stay valid while it grows. */
module Evidence {
  import opened Common

  /** The fields that identify a retrieved document; an absent field is the empty string. */
  datatype Document = Document(source: string, sourceKind: string, officialUrl: string, url: string, documentId: string,
                               chunkId: string, sourceDocumentId: string, metadataId: string, content: string,
                               pageContent: string)

  /** Hashing and case folding. */
  datatype Codec = Codec(sha256: string -> string, fold: string -> string)

  function Or(a: string, b: string): string { if a != "" then a else b }

  function TrimSlashes(t: string): string {
    if t != "" && t[|t| - 1] == '/' then TrimSlashes(t[..|t| - 1]) else t
  }

  function Source(d: Document): string { Or(d.source, Or(d.sourceKind, "legal")) }

  function WebAddress(c: Codec, d: Document): string { c.fold(TrimSlashes(Strip(Or(d.officialUrl, d.url)))) }

  function DocumentId(d: Document): string {
    Strip(Or(d.documentId, Or(d.chunkId, Or(d.sourceDocumentId, d.metadataId))))
  }

  /** What tells a document from the others of its source. */
  function LocalKey(c: Codec, d: Document): string {
    if Source(d) == "web" && WebAddress(c, d) != "" then WebAddress(c, d)
    else if DocumentId(d) != "" then DocumentId(d)
    else "sha256:" + c.sha256(Strip(Or(d.content, d.pageContent)))
  }

  function Identity(c: Codec, d: Document): string { Source(d) + ":" + LocalKey(c, d) }

  /** When source names contain no colon, documents share an identity exactly when they share source and key. */
  lemma SameIdentityExactly(c: Codec, a: Document, b: Document)
    requires ':' !in Source(a) && ':' !in Source(b)
    ensures Identity(c, a) == Identity(c, b) <==> Source(a) == Source(b) && LocalKey(c, a) == LocalKey(c, b)
  {
    hide Source, LocalKey;
    if Identity(c, a) == Identity(c, b) {
      var (m, n) := (|Source(a)|, |Source(b)|);
      assert Identity(c, a)[m] == ':' && Identity(c, b)[n] == ':';
      assert m == n;
      assert Source(a) == Identity(c, a)[..m] && Source(b) == Identity(c, b)[..m];
      assert LocalKey(c, a) == Identity(c, a)[m + 1..] && LocalKey(c, b) == Identity(c, b)[m + 1..];
    }
  }

  // ---- the list ----

  ghost predicate Known(c: Codec, evidence: seq<Document>, identity: string) {
    exists i :: 0 <= i < |evidence| && Identity(c, evidence[i]) == identity
  }

  ghost predicate DistinctIdentities(c: Codec, evidence: seq<Document>) {
    forall i, j :: 0 <= i < j < |evidence| ==> Identity(c, evidence[i]) != Identity(c, evidence[j])
  }

  /** The list after documents arrived: each new identity is added once, in order of arrival. */
  ghost function Grown(c: Codec, evidence: seq<Document>, documents: seq<Document>): seq<Document> {
    if documents == [] then evidence
    else
      var before := Grown(c, evidence, documents[..|documents| - 1]);
      var d := documents[|documents| - 1];
      if Known(c, before, Identity(c, d)) then before else before + [d]
  }

  /** A citation index, counted from one, that leads to a document with this identity. */
  predicate PointsTo(c: Codec, evidence: seq<Document>, index: int, identity: string) {
    1 <= index <= |evidence| && Identity(c, evidence[index - 1]) == identity
  }

  lemma {:induction false} GrownIsDistinct(c: Codec, evidence: seq<Document>, documents: seq<Document>)
    requires DistinctIdentities(c, evidence)
    ensures DistinctIdentities(c, Grown(c, evidence, documents))
  {
    if documents != [] {
      hide Identity;
      GrownIsDistinct(c, evidence, documents[..|documents| - 1]);
    }
  }

  /** The dictionary from identities to indices agrees with the list. */
  ghost predicate Indexes(c: Codec, known: map<string, int>, evidence: seq<Document>) {
    && (forall k :: k in known ==> PointsTo(c, evidence, known[k], k))
    && (forall i :: 0 <= i < |evidence| ==> Identity(c, evidence[i]) in known)
  }

  lemma IndexesOneMore(c: Codec, known: map<string, int>, evidence: seq<Document>, d: Document)
    requires Indexes(c, known, evidence)
    ensures Indexes(c, known[Identity(c, d) := |evidence| + 1], evidence + [d])
    ensures Identity(c, d) in known <==> Known(c, evidence, Identity(c, d))
  {
    hide Identity;
    if Identity(c, d) in known {
      assert Identity(c, evidence[known[Identity(c, d)] - 1]) == Identity(c, d);
    }
  }

  lemma KnownPoints(c: Codec, known: map<string, int>, evidence: seq<Document>, identity: string)
    requires Indexes(c, known, evidence) && identity in known
    ensures PointsTo(c, evidence, known[identity], identity)
  {
  }

  lemma NothingIndexed(c: Codec)
    ensures Indexes(c, map[], [])
  {
  }

  method AppendDocuments(c: Codec, allEvidence: seq<Document>, documents: seq<Document>)
    returns (evidence: seq<Document>, indices: seq<int>)
    ensures evidence == Grown(c, allEvidence, documents)
    ensures allEvidence <= evidence
    ensures DistinctIdentities(c, allEvidence) ==> DistinctIdentities(c, evidence)
    ensures |indices| == |documents|
    ensures forall i :: 0 <= i < |documents| ==> PointsTo(c, evidence, indices[i], Identity(c, documents[i]))
  {
    hide Identity, Indexes, Known;
    var known: map<string, int> := map[];
    NothingIndexed(c);
    assert allEvidence[..0] == [];
    for i := 0 to |allEvidence|
      invariant Indexes(c, known, allEvidence[..i])
    {
      IndexesOneMore(c, known, allEvidence[..i], allEvidence[i]);
      assert allEvidence[..i + 1] == allEvidence[..i] + [allEvidence[i]];
      known := known[Identity(c, allEvidence[i]) := i + 1];
    }
    evidence, indices := allEvidence, [];
    assert allEvidence[..|allEvidence|] == allEvidence && documents[..0] == [];
    for i := 0 to |documents|
      invariant Indexes(c, known, evidence)
      invariant evidence == Grown(c, allEvidence, documents[..i]) && allEvidence <= evidence
      invariant |indices| == i
      invariant forall j :: 0 <= j < i ==> PointsTo(c, evidence, indices[j], Identity(c, documents[j]))
    {
      var identity := Identity(c, documents[i]);
      IndexesOneMore(c, known, evidence, documents[i]);
      assert documents[..i + 1][..i] == documents[..i];
      if identity in known {
        KnownPoints(c, known, evidence, identity);
        indices := indices + [known[identity]];
      } else {
        evidence := evidence + [documents[i]];
        known := known[identity := |evidence|];
        indices := indices + [|evidence|];
      }
    }
    assert documents[..|documents|] == documents;
    if DistinctIdentities(c, allEvidence) {
      GrownIsDistinct(c, allEvidence, documents);
    }
  }
}
