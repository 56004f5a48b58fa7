/** A reader of certificates as sections 4.1 and 4.2 of RFC 5280 lay them out, and what it finds. */
module CertificateFields {
  import opened Options
  import opened Bytes
  import opened Der
  import opened DerValues
  import opened Certificate

  datatype Ext = Ext(id: seq<nat>, critical: bool, value: Node)

  /** Version 3 is written as 2. `key` is the subject's key as it stands in the certificate. */
  datatype Fields = Fields(
    version: int, serial: int, algorithm: seq<nat>, issuer: seq<byte>, from: Instant, to: Instant,
    subject: seq<byte>, key: Node, extensions: seq<Ext>)

  datatype Reading = Reading(fields: Fields, algorithm: seq<nat>, signature: seq<byte>)

  // ---------------------------------------------------------------- the reader

  /** AlgorithmIdentifier with NULL parameters */
  function ReadAlgorithm(n: Node): Option<seq<nat>> {
    if n.Cons? && n.tag == 0x30 && |n.kids| == 2 && n.kids[0].Prim? && n.kids[0].tag == 0x06 && n.kids[1] == Prim(0x05, [])
    then ReadOid(n.kids[0].content) else None
  }

  /** A Name of one common name in UTF8 */
  function ReadName(n: Node): Option<seq<byte>> {
    if n.Cons? && n.tag == 0x30 && |n.kids| == 1 && n.kids[0].Cons? && n.kids[0].tag == 0x31 && |n.kids[0].kids| == 1
    then ReadCommonName(n.kids[0].kids[0]) else None
  }

  function ReadCommonName(n: Node): Option<seq<byte>> {
    if n.Cons? && n.tag == 0x30 && |n.kids| == 2 && n.kids[0].Prim? && n.kids[0].tag == 0x06
      && ReadOid(n.kids[0].content) == Some([2, 5, 4, 3]) && n.kids[1].Prim? && n.kids[1].tag == 0x0c
    then Some(n.kids[1].content) else None
  }

  function ReadValidity(n: Node): Option<(Instant, Instant)> {
    if n.Cons? && n.tag == 0x30 && |n.kids| == 2 && n.kids[0].Prim? && n.kids[1].Prim? then
      match (ReadTime(n.kids[0].tag, n.kids[0].content), ReadTime(n.kids[1].tag, n.kids[1].content))
      case (Some(from), Some(to)) => Some((from, to))
      case _ => None
    else None
  }

  function ReadNumber(n: Node): Option<int> {
    if n.Prim? && n.tag == 0x02 then ReadInteger(n.content) else None
  }

  /** [0] EXPLICIT Version */
  function ReadVersion(n: Node): Option<int> {
    if n.Cons? && n.tag == 0xa0 && |n.kids| == 1 then ReadNumber(n.kids[0]) else None
  }

  /** The value of an extension is an encoding inside an octet string. `critical` is left out when false. */
  function ReadExtension(n: Node): Option<Ext> {
    if n.Cons? && n.tag == 0x30 && (|n.kids| == 2 || (|n.kids| == 3 && n.kids[1] == Prim(0x01, [0xff])))
      && n.kids[0].Prim? && n.kids[0].tag == 0x06 && n.kids[|n.kids| - 1].Prim? && n.kids[|n.kids| - 1].tag == 0x04
    then
      match (ReadOid(n.kids[0].content), Parse(n.kids[|n.kids| - 1].content))
      case (Some(id), Some((value, rest))) => if rest == [] then Some(Ext(id, |n.kids| == 3, value)) else None
      case _ => None
    else None
  }

  function ReadAll(ns: seq<Node>): Option<seq<Ext>> {
    if ns == [] then Some([])
    else
      match (ReadExtension(ns[0]), ReadAll(ns[1..]))
      case (Some(first), Some(rest)) => Some([first] + rest)
      case _ => None
  }

  /** [3] EXPLICIT Extensions */
  function ReadExtensions(n: Node): Option<seq<Ext>> {
    if n.Cons? && n.tag == 0xa3 && |n.kids| == 1 && n.kids[0].Cons? && n.kids[0].tag == 0x30 then ReadAll(n.kids[0].kids) else None
  }

  function ReadTbs(n: Node): Option<Fields> {
    if n.Cons? && n.tag == 0x30 && |n.kids| == 8 then
      match (ReadVersion(n.kids[0]), ReadNumber(n.kids[1]), ReadAlgorithm(n.kids[2]), ReadName(n.kids[3]))
      case (Some(version), Some(serial), Some(algorithm), Some(issuer)) =>
        (match (ReadValidity(n.kids[4]), ReadName(n.kids[5]), ReadExtensions(n.kids[7]))
         case (Some((from, to)), Some(subject), Some(extensions)) =>
           Some(Fields(version, serial, algorithm, issuer, from, to, subject, n.kids[6], extensions))
         case _ => None)
      case _ => None
    else None
  }

  /** Certificate ::= SEQUENCE of what is signed, the algorithm, and the signature as a bit string of octets */
  function ReadCertificate(b: seq<byte>): Option<Reading> {
    match Parse(b)
    case Some((n, rest)) =>
      if rest == [] && n.Cons? && n.tag == 0x30 && |n.kids| == 3
        && n.kids[2].Prim? && n.kids[2].tag == 0x03 && n.kids[2].content != [] && n.kids[2].content[0] == 0
      then
        (match (ReadTbs(n.kids[0]), ReadAlgorithm(n.kids[1]))
         case (Some(fields), Some(algorithm)) => Some(Reading(fields, algorithm, n.kids[2].content[1..]))
         case _ => None)
      else None
    case None => None
  }

  // ---------------------------------------------------------------- what extensions mean

  /** Section 4.2.1.3: the bits of a BIT STRING that are set, bit 0 the first octet's highest */
  function UsageBits(value: Node): set<nat> {
    if value.Prim? && value.tag == 0x03 && |value.content| == 2 then
      var b := value.content[1];
      set i: nat | i < 8 && Bit(b, i)
    else {}
  }

  predicate Bit(b: byte, i: nat)
    requires i < 8
  {
    b / [128, 64, 32, 16, 8, 4, 2, 1][i] % 2 == 1
  }

  const SHA256_RSA: seq<nat> := [1, 2, 840, 113549, 1, 1, 11]

  // ---------------------------------------------------------------- what it finds

  lemma AlgorithmFound()
    ensures ReadAlgorithm(AlgorithmNode()) == Some(SHA256_RSA)
  {
    IdReads(1, 2, [840, 113549, 1, 1, 11], SHA256_RSA);
  }

  lemma NameFound(cn: seq<byte>)
    ensures ReadName(NameNode(cn)) == Some(cn)
  {
    IdReads(2, 5, [4, 3], [2, 5, 4, 3]);
    hide ReadOid, OidBody;
  }

  lemma ExtensionFound(a: nat, b: nat, rest: seq<nat>, all: seq<nat>, critical: bool, value: Node)
    requires a <= 2 && b < 40 && all == [a, b] + rest && Legal(value) && Parse(Encode(value)) == Some((value, []))
    ensures ReadExtension(ExtensionNode(OidNode(a, b, rest), critical, value)) == Some(Ext(all, critical, value))
  {
    IdReads(a, b, rest, all);
    hide ReadOid, OidBody, Parse, Encode;
  }

  lemma VersionFound()
    ensures ReadVersion(VersionNode()) == Some(2)
  {
    VersionReads();
    hide ReadInteger, IntegerBody;
  }

  lemma SerialFound(serial: seq<byte>)
    requires serial != []
    ensures ReadNumber(Prim(T_INT, IntegerBody(serial))) == Some(Nat(serial))
  {
    IntegerReads(serial);
    hide ReadInteger, IntegerBody, Nat;
  }

  lemma ValidityFound(from: Instant, to: Instant)
    requires Calendar(from) && Calendar(to) && 1950 <= from.year <= 9999 && 1950 <= to.year <= 9999
    ensures ReadValidity(ValidityNode(from, to)) == Some((from, to))
  {
    TimeReads(from);
    TimeReads(to);
    hide ReadTime, Time;
  }

  /** A certificate authority; digitalSignature, keyEncipherment and keyCertSign; server authentication; the name
      localhost and the two loopback addresses */
  function Expected(): seq<Ext> {
    [Ext([2, 5, 29, 19], true, Cons(0x30, [Prim(0x01, [0xff])])),
     Ext([2, 5, 29, 15], true, Prim(0x03, [2, 0xa4])),
     Ext([2, 5, 29, 37], false, Cons(0x30, [Prim(0x06, OidBody(1, 3, [6, 1, 5, 5, 7, 3, 1]))])),
     Ext([2, 5, 29, 17], false,
         Cons(0x30, [Prim(0x82, [108, 111, 99, 97, 108, 104, 111, 115, 116]), Prim(0x87, [127, 0, 0, 1]),
                     Prim(0x87, [0, 0, 0, 0, 0, 0, 0, 0, 0, 0, 0, 0, 0, 0, 0, 1])]))]
  }

  lemma ExtensionsFound()
    ensures ReadExtensions(TailNode()) == Some(Expected())
  {
    var four := FourExtensions();
    assert TailNode() == Cons(163, [Cons(T_SEQ, four)]);
    hide Expected, ReadAll;
  }

  lemma FourExtensions() returns (four: seq<Node>)
    ensures ExtensionsNode() == Cons(T_SEQ, four) && ReadAll(four) == Some(Expected())
  {
    var a := ExtensionNode(OidNode(2, 5, [29, 19]), true, BasicNode());
    var b := ExtensionNode(OidNode(2, 5, [29, 15]), true, UsageNode());
    var c := ExtensionNode(OidNode(2, 5, [29, 37]), false, PurposeNode());
    var d := ExtensionNode(OidNode(2, 5, [29, 17]), false, NamesNode());
    four := [a, b, c, d];
    EachFound();
    ExpectedIs();
    hide ReadExtension, ExtensionNode, OidNode, BasicNode, UsageNode, PurposeNode, NamesNode, Expected, ReadAll;
    FourFound(a, b, c, d);
  }

  lemma EachFound()
    ensures ReadExtension(ExtensionNode(OidNode(2, 5, [29, 19]), true, BasicNode())) == Some(Ext([2, 5, 29, 19], true, BasicNode()))
    ensures ReadExtension(ExtensionNode(OidNode(2, 5, [29, 15]), true, UsageNode())) == Some(Ext([2, 5, 29, 15], true, UsageNode()))
    ensures ReadExtension(ExtensionNode(OidNode(2, 5, [29, 37]), false, PurposeNode())) == Some(Ext([2, 5, 29, 37], false, PurposeNode()))
    ensures ReadExtension(ExtensionNode(OidNode(2, 5, [29, 17]), false, NamesNode())) == Some(Ext([2, 5, 29, 17], false, NamesNode()))
  {
    hide *;
    BasicIs();
    UsageIs();
    PurposeIs();
    NamesIs();
    InsideExtensions();
    ExtensionFound(2, 5, [29, 19], [2, 5, 29, 19], true, BasicNode());
    ExtensionFound(2, 5, [29, 15], [2, 5, 29, 15], true, UsageNode());
    ExtensionFound(2, 5, [29, 37], [2, 5, 29, 37], false, PurposeNode());
    ExtensionFound(2, 5, [29, 17], [2, 5, 29, 17], false, NamesNode());
  }

  lemma ExpectedIs()
    ensures Expected() == [
      Ext([2, 5, 29, 19], true, BasicNode()), Ext([2, 5, 29, 15], true, UsageNode()),
      Ext([2, 5, 29, 37], false, PurposeNode()), Ext([2, 5, 29, 17], false, NamesNode())]
  {
  }

  lemma OneFound(a: Node, rest: seq<Node>)
    requires ReadExtension(a).Some? && ReadAll(rest).Some?
    ensures ReadAll([a] + rest) == Some([ReadExtension(a).value] + ReadAll(rest).value)
  {
    assert ([a] + rest)[1..] == rest;
  }

  lemma FourFound(a: Node, b: Node, c: Node, d: Node)
    requires ReadExtension(a).Some? && ReadExtension(b).Some? && ReadExtension(c).Some? && ReadExtension(d).Some?
    ensures ReadAll([a, b, c, d])
      == Some([ReadExtension(a).value, ReadExtension(b).value, ReadExtension(c).value, ReadExtension(d).value])
  {
    hide ReadExtension;
    OneFound(d, []);
    OneFound(c, [d] + []);
    OneFound(b, [c] + ([d] + []));
    OneFound(a, [b] + ([c] + ([d] + [])));
    assert ReadAll([]) == Some([]);
    hide ReadAll;
    assert [a] + ([b] + ([c] + ([d] + []))) == [a, b, c, d];
    var w, x, y, z := ReadExtension(a).value, ReadExtension(b).value, ReadExtension(c).value, ReadExtension(d).value;
    assert [w] + ([x] + ([y] + ([z] + []))) == [w, x, y, z];
  }

  lemma TbsFound(serial: seq<byte>, from: Instant, to: Instant, key: Node)
    requires serial != [] && Calendar(from) && Calendar(to) && 1950 <= from.year <= 9999 && 1950 <= to.year <= 9999
    ensures var name := [108, 111, 99, 97, 108, 104, 111, 115, 116];
      ReadTbs(TbsNode(serial, from, to, key)) == Some(Fields(2, Nat(serial), SHA256_RSA, name, from, to, name, key, Expected()))
  {
    assert LOCALHOST == [108, 111, 99, 97, 108, 104, 111, 115, 116];
    assert TbsNode(serial, from, to, key) == Cons(0x30, [
      VersionNode(), Prim(T_INT, IntegerBody(serial)), AlgorithmNode(), NameNode(LOCALHOST),
      ValidityNode(from, to), NameNode(LOCALHOST), key, TailNode()]);
    hide *;
    VersionFound();
    SerialFound(serial);
    AlgorithmFound();
    NameFound(LOCALHOST);
    ValidityFound(from, to);
    ExtensionsFound();
    EightFound(VersionNode(), Prim(T_INT, IntegerBody(serial)), AlgorithmNode(), NameNode(LOCALHOST), ValidityNode(from, to), key, TailNode());
  }

  lemma EightFound(version: Node, serial: Node, algorithm: Node, name: Node, validity: Node, key: Node, tail: Node)
    requires ReadVersion(version).Some? && ReadNumber(serial).Some? && ReadAlgorithm(algorithm).Some?
    requires ReadName(name).Some? && ReadValidity(validity).Some? && ReadExtensions(tail).Some?
    ensures ReadTbs(Cons(0x30, [version, serial, algorithm, name, validity, name, key, tail])) == Some(Fields(
      ReadVersion(version).value, ReadNumber(serial).value, ReadAlgorithm(algorithm).value, ReadName(name).value,
      ReadValidity(validity).value.0, ReadValidity(validity).value.1, ReadName(name).value, key, ReadExtensions(tail).value))
  {
    hide ReadVersion, ReadNumber, ReadAlgorithm, ReadName, ReadValidity, ReadExtensions;
  }

  /** Such a reader finds in the certificate a version 3, the serial's value, one algorithm inside and out, the
      one name as issuer and subject, the validity, the key, the four extensions, and the signature. */
  lemma Minted(serial: seq<byte>, from: Instant, to: Instant, spki: seq<byte>, key: Node, signature: seq<byte>)
    requires serial != [] && Calendar(from) && Calendar(to) && 1950 <= from.year <= 9999 && 1950 <= to.year <= 9999
    requires Parse(spki) == Some((key, [])) && |Cert(Tbs(serial, from, to, spki), signature)| < SAFE
    ensures var name := [108, 111, 99, 97, 108, 104, 111, 115, 116];
      ReadCertificate(Cert(Tbs(serial, from, to, spki), signature))
      == Some(Reading(Fields(2, Nat(serial), SHA256_RSA, name, from, to, name, key, Expected()), SHA256_RSA, signature))
  {
    hide *;
    CertificateReads(serial, from, to, spki, signature, []);
    CertNodeIs(TbsNode(serial, from, to, key), signature);
    TbsFound(serial, from, to, key);
    AlgorithmFound();
    var b := Cert(Tbs(serial, from, to, spki), signature);
    assert b + [] == b;
    WholeFound(b, TbsNode(serial, from, to, key), AlgorithmNode(), signature);
  }

  lemma CertNodeIs(tbs: Node, signature: seq<byte>)
    ensures CertNode(tbs, signature) == Cons(0x30, [tbs, AlgorithmNode(), Prim(0x03, [0] + signature)])
  {
  }

  lemma WholeFound(b: seq<byte>, tbs: Node, algorithm: Node, signature: seq<byte>)
    requires Parse(b) == Some((Cons(0x30, [tbs, algorithm, Prim(0x03, [0] + signature)]), []))
    requires ReadTbs(tbs).Some? && ReadAlgorithm(algorithm).Some?
    ensures ReadCertificate(b) == Some(Reading(ReadTbs(tbs).value, ReadAlgorithm(algorithm).value, signature))
  {
    hide Parse, ReadTbs, ReadAlgorithm;
    assert ([0] + signature)[1..] == signature;
  }

  /** Bits 0, 2 and 5 of the usage, and the one purpose */
  lemma UsageMeans()
    ensures UsageBits(Expected()[1].value) == {0, 2, 5}
    ensures Expected()[2].value.kids[0].Prim? && ReadOid(Expected()[2].value.kids[0].content) == Some([1, 3, 6, 1, 5, 5, 7, 3, 1])
  {
    IdReads(1, 3, [6, 1, 5, 5, 7, 3, 1], [1, 3, 6, 1, 5, 5, 7, 3, 1]);
    BitsSet();
    hide ReadOid, OidBody, UsageBits;
  }

  lemma BitsSet()
    ensures UsageBits(Prim(0x03, [2, 0xa4])) == {0, 2, 5}
  {
    assert Bit(0xa4, 0) && Bit(0xa4, 2) && Bit(0xa4, 5);
    assert !Bit(0xa4, 1) && !Bit(0xa4, 3) && !Bit(0xa4, 4) && !Bit(0xa4, 6) && !Bit(0xa4, 7);
    hide Bit;
  }
}
