/** The certificate of mintSelfSigned in runner/tls.ts: its octets, the tree that is meant, and the tree that
    a reader of them finds. */
module Certificate {
  import opened Options
  import opened Bytes
  import opened Der
  import opened DerValues

  const T_BOOL: byte := 0x01
  const T_INT: byte := 0x02
  const T_BIT: byte := 0x03
  const T_OCT: byte := 0x04
  const T_NULL: byte := 0x05
  const T_OID: byte := 0x06
  const T_UTF8: byte := 0x0c
  const T_SEQ: byte := 0x30
  const T_SET: byte := 0x31

  // ---------------------------------------------------------------- the writers

  function Concat(parts: seq<seq<byte>>): seq<byte> {
    if parts == [] then [] else parts[0] + Concat(parts[1..])
  }

  function Seq(parts: seq<seq<byte>>): seq<byte> { Tlv(T_SEQ, Concat(parts)) }
  function Set(parts: seq<seq<byte>>): seq<byte> { Tlv(T_SET, Concat(parts)) }
  function Null(): seq<byte> { Tlv(T_NULL, []) }
  function Bool(v: bool): seq<byte> { Tlv(T_BOOL, [if v then 0xff else 0]) }
  function Octets(b: seq<byte>): seq<byte> { Tlv(T_OCT, b) }
  function Utf8(b: seq<byte>): seq<byte> { Tlv(T_UTF8, b) }
  function BitString(content: seq<byte>, unused: byte): seq<byte> { Tlv(T_BIT, [unused] + content) }
  function Integer(b: seq<byte>): seq<byte> { Tlv(T_INT, IntegerBody(b)) }
  function Oid(a: nat, b: nat, rest: seq<nat>): seq<byte> { Tlv(T_OID, OidBody(a, b, rest)) }
  function Asn1Time(t: Instant): seq<byte> { Tlv(Time(t).0, Time(t).1) }

  /** The explicit context tag [n] */
  function Ctx(n: nat, body: seq<byte>): seq<byte>
    requires n < 31
  {
    Tlv(160 + n, body)
  }

  const LOCALHOST: seq<byte> := [108, 111, 99, 97, 108, 104, 111, 115, 116]
  const IPV4: seq<byte> := [127, 0, 0, 1]
  const IPV6: seq<byte> := [0, 0, 0, 0, 0, 0, 0, 0, 0, 0, 0, 0, 0, 0, 0, 1]

  function Sha256WithRsa(): seq<byte> { Seq([Oid(1, 2, [840, 113549, 1, 1, 11]), Null()]) }

  function NameCN(cn: seq<byte>): seq<byte> { Seq([Set([Seq([Oid(2, 5, [4, 3]), Utf8(cn)])])]) }

  function Extension(id: seq<byte>, critical: bool, value: seq<byte>): seq<byte> {
    if critical then Seq([id, Bool(true), Octets(value)]) else Seq([id, Octets(value)])
  }

  function Extensions(): seq<byte> {
    Seq([
      Extension(Oid(2, 5, [29, 19]), true, Seq([Bool(true)])),
      Extension(Oid(2, 5, [29, 15]), true, BitString([0xa4], 2)),
      Extension(Oid(2, 5, [29, 37]), false, Seq([Oid(1, 3, [6, 1, 5, 5, 7, 3, 1])])),
      Extension(Oid(2, 5, [29, 17]), false, Seq([Tlv(0x82, LOCALHOST), Tlv(0x87, IPV4), Tlv(0x87, IPV6)]))
    ])
  }

  /** The part that is signed; `spki` is the key in the encoding that the crypto library exports. */
  function Tbs(serial: seq<byte>, from: Instant, to: Instant, spki: seq<byte>): seq<byte> {
    Seq([
      Ctx(0, Integer([2])), Integer(serial), Sha256WithRsa(), NameCN(LOCALHOST),
      Seq([Asn1Time(from), Asn1Time(to)]), NameCN(LOCALHOST), spki, Ctx(3, Extensions())
    ])
  }

  function Cert(tbs: seq<byte>, signature: seq<byte>): seq<byte> {
    Seq([tbs, Sha256WithRsa(), BitString(signature, 0)])
  }

  // ---------------------------------------------------------------- the trees

  function OidNode(a: nat, b: nat, rest: seq<nat>): Node { Prim(T_OID, OidBody(a, b, rest)) }

  function AlgorithmNode(): Node { Cons(T_SEQ, [OidNode(1, 2, [840, 113549, 1, 1, 11]), Prim(T_NULL, [])]) }

  function NameNode(cn: seq<byte>): Node {
    Cons(T_SEQ, [Cons(T_SET, [Cons(T_SEQ, [OidNode(2, 5, [4, 3]), Prim(T_UTF8, cn)])])])
  }

  function ExtensionNode(id: Node, critical: bool, value: Node): Node {
    Cons(T_SEQ, if critical then [id, Prim(T_BOOL, [0xff]), Prim(T_OCT, Encode(value))] else [id, Prim(T_OCT, Encode(value))])
  }

  function BasicNode(): Node { Cons(T_SEQ, [Prim(T_BOOL, [0xff])]) }
  function UsageNode(): Node { Prim(T_BIT, [2, 0xa4]) }
  function PurposeNode(): Node { Cons(T_SEQ, [OidNode(1, 3, [6, 1, 5, 5, 7, 3, 1])]) }
  function NamesNode(): Node { Cons(T_SEQ, [Prim(0x82, LOCALHOST), Prim(0x87, IPV4), Prim(0x87, IPV6)]) }

  function ExtensionsNode(): Node {
    Cons(T_SEQ, [
      ExtensionNode(OidNode(2, 5, [29, 19]), true, BasicNode()),
      ExtensionNode(OidNode(2, 5, [29, 15]), true, UsageNode()),
      ExtensionNode(OidNode(2, 5, [29, 37]), false, PurposeNode()),
      ExtensionNode(OidNode(2, 5, [29, 17]), false, NamesNode())
    ])
  }

  function TimeNode(t: Instant): Node { Prim(Time(t).0, Time(t).1) }

  function TbsNode(serial: seq<byte>, from: Instant, to: Instant, key: Node): Node {
    Cons(T_SEQ, [
      VersionNode(), Prim(T_INT, IntegerBody(serial)), AlgorithmNode(), NameNode(LOCALHOST),
      ValidityNode(from, to), NameNode(LOCALHOST), key, TailNode()
    ])
  }

  function VersionNode(): Node { Cons(160, [Prim(T_INT, IntegerBody([2]))]) }
  function ValidityNode(from: Instant, to: Instant): Node { Cons(T_SEQ, [TimeNode(from), TimeNode(to)]) }
  function TailNode(): Node { Cons(163, [ExtensionsNode()]) }

  function CertNode(tbs: Node, signature: seq<byte>): Node {
    Cons(T_SEQ, [tbs, AlgorithmNode(), Prim(T_BIT, [0] + signature)])
  }

  // ---------------------------------------------------------------- writers against trees

  /** Parts that encode trees, in a row. */
  lemma {:induction false} ConcatIs(parts: seq<seq<byte>>, kids: seq<Node>)
    requires |parts| == |kids| && forall i :: 0 <= i < |parts| ==> parts[i] == Encode(kids[i])
    ensures Concat(parts) == EncodeAll(kids)
  {
    if parts != [] {
      ConcatIs(parts[1..], kids[1..]);
    }
  }

  lemma {:induction false} AllLegalIs(kids: seq<Node>)
    requires forall i :: 0 <= i < |kids| ==> Legal(kids[i])
    ensures AllLegal(kids)
  {
    if kids != [] {
      AllLegalIs(kids[1..]);
    }
  }

  lemma SeqIs(parts: seq<seq<byte>>, kids: seq<Node>)
    requires |parts| == |kids| && forall i :: 0 <= i < |parts| ==> parts[i] == Encode(kids[i]) && Legal(kids[i])
    ensures Seq(parts) == Encode(Cons(T_SEQ, kids)) && Legal(Cons(T_SEQ, kids))
  {
    ConcatIs(parts, kids);
    AllLegalIs(kids);
  }

  lemma OneIs(tag: byte, kid: Node)
    requires tag % 32 != 31 && Constructed(tag) && Legal(kid)
    ensures Tlv(tag, Encode(kid)) == Encode(Cons(tag, [kid])) && Legal(Cons(tag, [kid]))
  {
    AllLegalIs([kid]);
    assert EncodeAll([kid]) == Encode(kid) + EncodeAll([kid][1..]) && [kid][1..] == [];
    assert Encode(kid) + [] == Encode(kid);
  }

  lemma AlgorithmIs()
    ensures Sha256WithRsa() == Encode(AlgorithmNode()) && Legal(AlgorithmNode())
  {
    SeqIs([Oid(1, 2, [840, 113549, 1, 1, 11]), Null()], [OidNode(1, 2, [840, 113549, 1, 1, 11]), Prim(T_NULL, [])]);
  }

  lemma NameIs(cn: seq<byte>)
    ensures NameCN(cn) == Encode(NameNode(cn)) && Legal(NameNode(cn))
  {
    var pair := [OidNode(2, 5, [4, 3]), Prim(T_UTF8, cn)];
    SeqIs([Oid(2, 5, [4, 3]), Utf8(cn)], pair);
    var rdn := Cons(T_SEQ, pair);
    assert Concat([Encode(rdn)]) == Encode(rdn) + Concat([Encode(rdn)][1..]) && [Encode(rdn)][1..] == [];
    OneIs(T_SET, rdn);
    SeqIs([Set([Encode(rdn)])], [Cons(T_SET, [rdn])]);
  }

  lemma ExtensionIs(id: seq<byte>, idNode: Node, critical: bool, value: seq<byte>, valueNode: Node)
    requires id == Encode(idNode) && Legal(idNode) && value == Encode(valueNode)
    ensures Extension(id, critical, value) == Encode(ExtensionNode(idNode, critical, valueNode))
    ensures Legal(ExtensionNode(idNode, critical, valueNode))
  {
    if critical {
      SeqIs([id, Bool(true), Octets(value)], [idNode, Prim(T_BOOL, [0xff]), Prim(T_OCT, value)]);
    } else {
      SeqIs([id, Octets(value)], [idNode, Prim(T_OCT, value)]);
    }
  }

  lemma BasicIs()
    ensures Seq([Bool(true)]) == Encode(BasicNode()) && Legal(BasicNode())
    ensures |Encode(BasicNode())| < 128
  {
    SeqIs([Bool(true)], [Prim(T_BOOL, [0xff])]);
    assert Concat([Bool(true)]) == Bool(true) + Concat([Bool(true)][1..]);
  }

  lemma UsageIs()
    ensures BitString([0xa4], 2) == Encode(UsageNode()) && Legal(UsageNode())
    ensures |Encode(UsageNode())| < 128
  {
    assert [2] + [0xa4] == [2, 0xa4];
  }

  lemma PurposeIs()
    ensures Seq([Oid(1, 3, [6, 1, 5, 5, 7, 3, 1])]) == Encode(PurposeNode()) && Legal(PurposeNode())
    ensures |Encode(PurposeNode())| < 128
  {
    var id := Oid(1, 3, [6, 1, 5, 5, 7, 3, 1]);
    SeqIs([id], [OidNode(1, 3, [6, 1, 5, 5, 7, 3, 1])]);
    assert |OidBody(1, 3, [6, 1, 5, 5, 7, 3, 1])| == 8 by { ShortArcs([6, 1, 5, 5, 7, 3, 1]); }
    var ids: seq<seq<byte>> := [id];
    assert ids[1..] == [] && Concat(ids) == id + Concat([]);
  }

  lemma {:induction false} ShortArcs(rest: seq<nat>)
    requires forall i :: 0 <= i < |rest| ==> rest[i] < 128
    ensures |Arcs(rest)| == |rest|
  {
    if rest != [] {
      ShortArcs(rest[1..]);
    }
  }

  lemma NamesIs()
    ensures Seq([Tlv(0x82, LOCALHOST), Tlv(0x87, IPV4), Tlv(0x87, IPV6)]) == Encode(NamesNode()) && Legal(NamesNode())
    ensures |Encode(NamesNode())| < 128
  {
    var a, b, c := Tlv(0x82, LOCALHOST), Tlv(0x87, IPV4), Tlv(0x87, IPV6);
    SeqIs([a, b, c], [Prim(0x82, LOCALHOST), Prim(0x87, IPV4), Prim(0x87, IPV6)]);
    assert |a| == 11 && |b| == 6 && |c| == 18;
    hide Tlv;
    var all: seq<seq<byte>> := [a, b, c];
    assert all[1..][1..][1..] == [] && Concat(all[1..][1..]) == c + [];
    assert Concat(all[1..]) == b + (c + []) && Concat(all) == a + (b + (c + []));
    SmallTlv(T_SEQ, Concat(all));
  }

  lemma SmallTlv(tag: byte, body: seq<byte>)
    requires |body| < 100
    ensures |Tlv(tag, body)| < 128
  {
  }

  lemma ExtensionsIs()
    ensures Extensions() == Encode(ExtensionsNode()) && Legal(ExtensionsNode())
  {
    BasicIs();
    UsageIs();
    PurposeIs();
    NamesIs();
    ExtensionIs(Oid(2, 5, [29, 19]), OidNode(2, 5, [29, 19]), true, Seq([Bool(true)]), BasicNode());
    ExtensionIs(Oid(2, 5, [29, 15]), OidNode(2, 5, [29, 15]), true, BitString([0xa4], 2), UsageNode());
    ExtensionIs(Oid(2, 5, [29, 37]), OidNode(2, 5, [29, 37]), false, Seq([Oid(1, 3, [6, 1, 5, 5, 7, 3, 1])]), PurposeNode());
    ExtensionIs(Oid(2, 5, [29, 17]), OidNode(2, 5, [29, 17]), false,
                Seq([Tlv(0x82, LOCALHOST), Tlv(0x87, IPV4), Tlv(0x87, IPV6)]), NamesNode());
    hide Extension, ExtensionNode, Oid, OidNode, BitString, Bool, BasicNode, UsageNode, PurposeNode, NamesNode, Encode, Legal, Seq, Tlv;
    FourParts(
      ExtensionNode(OidNode(2, 5, [29, 19]), true, BasicNode()),
      ExtensionNode(OidNode(2, 5, [29, 15]), true, UsageNode()),
      ExtensionNode(OidNode(2, 5, [29, 37]), false, PurposeNode()),
      ExtensionNode(OidNode(2, 5, [29, 17]), false, NamesNode()));
  }

  lemma FourParts(a: Node, b: Node, c: Node, d: Node)
    requires Legal(a) && Legal(b) && Legal(c) && Legal(d)
    ensures Seq([Encode(a), Encode(b), Encode(c), Encode(d)]) == Encode(Cons(T_SEQ, [a, b, c, d]))
    ensures Legal(Cons(T_SEQ, [a, b, c, d]))
  {
    hide *;
    SeqIs([Encode(a), Encode(b), Encode(c), Encode(d)], [a, b, c, d]);
  }

  lemma TbsIs(serial: seq<byte>, from: Instant, to: Instant, key: Node)
    requires Legal(key)
    ensures Tbs(serial, from, to, Encode(key)) == Encode(TbsNode(serial, from, to, key))
    ensures Legal(TbsNode(serial, from, to, key))
  {
    hide Extensions, NameCN, NameNode, Sha256WithRsa, AlgorithmNode, Integer, IntegerBody, Seq, Ctx, Encode, Legal, Asn1Time, VersionNode, ValidityNode, TailNode, Parse, ParseAll, Tlv;
    VersionIs();
    SerialIs(serial);
    AlgorithmIs();
    NameIs(LOCALHOST);
    ValidityIs(from, to);
    TailIs();
    EightParts(
      VersionNode(), Prim(T_INT, IntegerBody(serial)), AlgorithmNode(), NameNode(LOCALHOST),
      ValidityNode(from, to), NameNode(LOCALHOST), key, TailNode());
  }

  lemma EightParts(a: Node, b: Node, c: Node, d: Node, e: Node, f: Node, g: Node, h: Node)
    requires Legal(a) && Legal(b) && Legal(c) && Legal(d) && Legal(e) && Legal(f) && Legal(g) && Legal(h)
    ensures Seq([Encode(a), Encode(b), Encode(c), Encode(d), Encode(e), Encode(f), Encode(g), Encode(h)])
      == Encode(Cons(T_SEQ, [a, b, c, d, e, f, g, h]))
    ensures Legal(Cons(T_SEQ, [a, b, c, d, e, f, g, h]))
  {
    hide *;
    SeqIs([Encode(a), Encode(b), Encode(c), Encode(d), Encode(e), Encode(f), Encode(g), Encode(h)], [a, b, c, d, e, f, g, h]);
  }

  lemma SerialIs(serial: seq<byte>)
    ensures Integer(serial) == Encode(Prim(T_INT, IntegerBody(serial))) && Legal(Prim(T_INT, IntegerBody(serial)))
  {
  }

  lemma VersionIs()
    ensures Ctx(0, Integer([2])) == Encode(VersionNode()) && Legal(VersionNode())
  {
    OneIs(160, Prim(T_INT, IntegerBody([2])));
  }

  lemma ValidityIs(from: Instant, to: Instant)
    ensures Seq([Asn1Time(from), Asn1Time(to)]) == Encode(ValidityNode(from, to)) && Legal(ValidityNode(from, to))
  {
    hide Clock, Padded;
    SeqIs([Asn1Time(from), Asn1Time(to)], [TimeNode(from), TimeNode(to)]);
  }

  lemma TailIs()
    ensures Ctx(3, Extensions()) == Encode(TailNode()) && Legal(TailNode())
  {
    ExtensionsIs();
    hide Extensions, ExtensionsNode;
    OneIs(163, ExtensionsNode());
  }

  /** A reader of the certificate finds the tree that was meant, with the very octets that were signed
      as its first part. */
  lemma CertificateReads(serial: seq<byte>, from: Instant, to: Instant, spki: seq<byte>, signature: seq<byte>, rest: seq<byte>)
    requires Parse(spki).Some? && Parse(spki).value.1 == []
    requires |Cert(Tbs(serial, from, to, spki), signature)| < SAFE
    ensures var tbs := Tbs(serial, from, to, spki);
      var node := TbsNode(serial, from, to, Parse(spki).value.0);
      && Parse(Cert(tbs, signature) + rest) == Some((CertNode(node, signature), rest))
      && Encode(node) == tbs
  {
    var key := Parse(spki).value.0;
    EncodeDecode(spki);
    assert spki == Encode(key) + [] == Encode(key);
    TbsIs(serial, from, to, key);
    hide *;
    CertIs(TbsNode(serial, from, to, key), signature);
    DecodeEncode(CertNode(TbsNode(serial, from, to, key), signature), rest);
  }

  lemma CertIs(tbs: Node, signature: seq<byte>)
    requires Legal(tbs)
    ensures Cert(Encode(tbs), signature) == Encode(CertNode(tbs, signature)) && Legal(CertNode(tbs, signature))
  {
    AlgorithmIs();
    hide Sha256WithRsa, AlgorithmNode;
    SeqIs([Encode(tbs), Sha256WithRsa(), BitString(signature, 0)], [tbs, AlgorithmNode(), Prim(T_BIT, [0] + signature)]);
  }

  /** What the fields say: version 3, the serial's value, the validity, every identifier, and the value
      inside each extension. */
  lemma FieldsRead(serial: seq<byte>, from: Instant, to: Instant)
    requires serial != [] && Calendar(from) && Calendar(to) && 1950 <= from.year <= 9999 && 1950 <= to.year <= 9999
    ensures ReadInteger(IntegerBody([2])) == Some(2)
    ensures ReadInteger(IntegerBody(serial)) == Some(Nat(serial))
    ensures ReadTime(Time(from).0, Time(from).1) == Some(from)
    ensures ReadTime(Time(to).0, Time(to).1) == Some(to)
    ensures ReadOid(OidBody(1, 2, [840, 113549, 1, 1, 11])) == Some([1, 2, 840, 113549, 1, 1, 11])
    ensures ReadOid(OidBody(2, 5, [4, 3])) == Some([2, 5, 4, 3])
    ensures ReadOid(OidBody(2, 5, [29, 19])) == Some([2, 5, 29, 19])
    ensures ReadOid(OidBody(2, 5, [29, 15])) == Some([2, 5, 29, 15])
    ensures ReadOid(OidBody(2, 5, [29, 37])) == Some([2, 5, 29, 37])
    ensures ReadOid(OidBody(2, 5, [29, 17])) == Some([2, 5, 29, 17])
    ensures ReadOid(OidBody(1, 3, [6, 1, 5, 5, 7, 3, 1])) == Some([1, 3, 6, 1, 5, 5, 7, 3, 1])
    ensures Parse(Encode(BasicNode())) == Some((BasicNode(), [])) && Parse(Encode(UsageNode())) == Some((UsageNode(), []))
    ensures Parse(Encode(PurposeNode())) == Some((PurposeNode(), [])) && Parse(Encode(NamesNode())) == Some((NamesNode(), []))
  {
    hide *;
    VersionReads();
    IntegerReads(serial);
    TimeReads(from);
    TimeReads(to);
    IdReads(1, 2, [840, 113549, 1, 1, 11], [1, 2, 840, 113549, 1, 1, 11]);
    IdReads(2, 5, [4, 3], [2, 5, 4, 3]);
    IdReads(2, 5, [29, 19], [2, 5, 29, 19]);
    IdReads(2, 5, [29, 15], [2, 5, 29, 15]);
    IdReads(2, 5, [29, 37], [2, 5, 29, 37]);
    IdReads(2, 5, [29, 17], [2, 5, 29, 17]);
    IdReads(1, 3, [6, 1, 5, 5, 7, 3, 1], [1, 3, 6, 1, 5, 5, 7, 3, 1]);
    InsideExtensions();
  }

  lemma IdReads(a: nat, b: nat, rest: seq<nat>, all: seq<nat>)
    requires a <= 2 && b < 40 && all == [a, b] + rest
    ensures ReadOid(OidBody(a, b, rest)) == Some(all)
  {
    OidReads(a, b, rest);
  }

  lemma VersionReads()
    ensures ReadInteger(IntegerBody([2])) == Some(2)
  {
    var b: seq<byte> := [2];
    IntegerReads(b);
    assert b[..0] == [] && Nat(b) == 2;
  }

  lemma InsideExtensions()
    ensures Parse(Encode(BasicNode())) == Some((BasicNode(), [])) && Parse(Encode(UsageNode())) == Some((UsageNode(), []))
    ensures Parse(Encode(PurposeNode())) == Some((PurposeNode(), [])) && Parse(Encode(NamesNode())) == Some((NamesNode(), []))
  {
    BasicIs();
    UsageIs();
    PurposeIs();
    NamesIs();
    hide BasicNode, UsageNode, PurposeNode, NamesNode, Encode, Legal, Parse, Tlv, Seq, BitString, Bool;
    ReadsWhole(BasicNode());
    ReadsWhole(UsageNode());
    ReadsWhole(PurposeNode());
    ReadsWhole(NamesNode());
  }

  lemma ReadsWhole(t: Node)
    requires Legal(t) && |Encode(t)| < SAFE
    ensures Parse(Encode(t)) == Some((t, []))
  {
    DecodeEncode(t, []);
    assert Encode(t) + [] == Encode(t);
  }
}
