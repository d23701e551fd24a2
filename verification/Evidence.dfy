/**
 * The quads of a profile. An extractor redacts the detail rows of a root, and a
 * validator checks the redacted quads. It accepts them exactly when the rows
 * satisfied the same rules before redaction.
 *
 * The size of a term and of a line, and the key that published material
 * stands for, are parameters.
 */
module Evidence {
  import opened Sequences
  import opened Numbers
  import opened Sorting
  import opened Aliases
  import opened Subjects
  import opened SystemLimits

  /** The properties (RDF predicates) that the allowlist names; any other one is told by its IRI. */
  datatype Property =
    | RdfType | Name | Description | PeerId | NodeRole | PublicKey | RelayAddress | AgentAddress | Multiaddr | LastSeen
    | PublicEncryptionKey | EncryptionKeyAlgorithm | EncryptionKeyProof | Framework
    | Capabilities | OffersSkill | WasGeneratedBy | HostingProfile
    | Skill | PricePerCall | Currency | SuccessRate | Pricing | AtTime | ContextGraphsServed | ParanetsServed
    | RevokedAt | RevokedBy | EncryptionKeyRevocationProof | Other(iri: string)

  datatype Term = Iri(text: string) | Literal(text: string)

  /** A detail row of a root. */
  datatype Triple = Triple(subject: string, property: Property, target: Term)

  datatype Quad = Quad(subject: string, property: Property, isIri: bool, bytes: nat, owned: Option<string>)

  /** What a profile says beside its aliases. */
  datatype Evidence = Evidence(linked: seq<string>, derived: seq<string>, quads: seq<Quad>, bytes: nat)

  // ----- the rules of the grammar, lines 22 to 73 and 142 to 184 of subjects.ts

  predicate Allowed(kind: Kind, p: Property) {
    match kind
    case Root =>
      || p.RdfType? || p.Name? || p.Description? || p.PeerId? || p.NodeRole? || p.PublicKey? || p.RelayAddress?
      || p.AgentAddress? || p.Multiaddr? || p.LastSeen? || p.PublicEncryptionKey? || p.EncryptionKeyAlgorithm?
      || p.EncryptionKeyProof? || p.Framework? || IsLink(p)
    case Capability => p.RdfType? || p.Name?
    case Offering => p.RdfType? || p.Skill? || p.PricePerCall? || p.Currency? || p.SuccessRate? || p.Pricing?
    case Registration => p.RdfType? || p.AtTime?
    case Hosting => p.RdfType? || p.ContextGraphsServed? || p.ParanetsServed?
    case X25519 => p.RevokedAt? || p.RevokedBy? || p.EncryptionKeyRevocationProof?
  }

  predicate IsLink(p: Property) { p.Capabilities? || p.OffersSkill? || p.WasGeneratedBy? || p.HostingProfile? }

  /** The property by which a root links a subject of this kind. */
  function LinkTo(kind: Kind): Option<Property> {
    match kind
    case Capability => Some(Capabilities)
    case Offering => Some(OffersSkill)
    case Registration => Some(WasGeneratedBy)
    case Hosting => Some(HostingProfile)
    case _ => None
  }

  predicate NeedsOwned(kind: Kind, p: Property) { (kind.Root? && IsLink(p)) || (kind.X25519? && p.RevokedBy?) }

  predicate Relates(fromRoot: bool, from: Kind, p: Property, to: Kind) {
    if LinkTo(to).Some? then fromRoot && LinkTo(to) == Some(p) else to.Root? && from.X25519? && p.RevokedBy?
  }

  // ----- the validator, on redacted quads

  predicate GoodQuad(kind: Classifier, root: string, q: Quad) {
    && (q.owned.Some? ==> q.isIri)
    && kind(q.subject).Some?
    && var from := kind(q.subject).value;
    && Allowed(from, q.property)
    && (from.Root? && q.property.PeerId? ==> !q.isIri)
    && (NeedsOwned(from, q.property) ==> q.owned.Some?)
    && (q.owned.Some? ==>
          kind(q.owned.value).Some? && Relates(q.subject == root, from, q.property, kind(q.owned.value).value))
    && q.bytes <= ONE_MIB
  }

  /** The keys that the quads are about or refer to. */
  function Referenced(kind: Classifier, quads: seq<Quad>): set<string> {
    (set q | q in quads && IsKey(kind, q.subject) :: q.subject)
    + (set q | q in quads && q.owned.Some? && IsKey(kind, q.owned.value) :: q.owned.value)
  }

  predicate IsRootLink(kind: Classifier, root: string, q: Quad) {
    && q.subject == root && q.owned.Some? && kind(q.owned.value).Some?
    && LinkTo(kind(q.owned.value).value) == Some(q.property)
  }

  /** What the root links, in the order of the quads. */
  function Links(kind: Classifier, root: string, quads: seq<Quad>): seq<string> {
    if quads == [] then []
    else
      var earlier, q := Links(kind, root, quads[..|quads| - 1]), quads[|quads| - 1];
      if IsRootLink(kind, root, q) then earlier + [q.owned.value] else earlier
  }

  function QuadSubjects(quads: seq<Quad>): set<string> { set q | q in quads :: q.subject }

  function Owned(root: string, e: Evidence): set<string> {
    {root} + Elements(e.linked) + Elements(e.derived) + QuadSubjects(e.quads)
  }

  predicate InPlace(s: seq<string>, i: nat)
    requires i < |s|
  {
    s[i] != "" && (i > 0 ==> TextLess(s[i - 1], s[i]))
  }

  /** Lines 1561 to 1570 of model.ts. */
  ghost predicate SortedUnique(s: seq<string>) { forall i :: 0 <= i < |s| ==> InPlace(s, i) }

  ghost predicate GoodEvidence(kind: Classifier, root: string, e: Evidence) {
    && SortedUnique(e.linked) && SortedUnique(e.derived)
    && (forall i :: 0 <= i < |e.derived| ==> IsKey(kind, e.derived[i]))
    && |e.quads| <= MAX_PROFILE_QUADS && |Owned(root, e)| <= MAX_OWNED_SUBJECTS && e.bytes <= ONE_MIB
    && (forall i :: 0 <= i < |e.quads| ==> GoodQuad(kind, root, e.quads[i]))
    && Elements(e.derived) == Referenced(kind, e.quads)
    && e.derived == Dense(root + FIXTURE_KEY, |e.derived|)
    && e.linked == Sort(TextLe, Distinctly(Links(kind, root, e.quads)))
  }

  // ----- the rows, before redaction

  predicate OwnsObject(kind: Classifier, t: Triple) { t.target.Iri? && kind(t.target.text).Some? }

  /** The check of lines 405 to 418 of extract-rdf.ts; terms that are no IRI are told by their type. */
  predicate Listed(kind: Classifier, t: Triple) { kind(t.subject).Some? && Allowed(kind(t.subject).value, t.property) }

  ghost predicate AllListed(kind: Classifier, rows: seq<Triple>) { forall i :: 0 <= i < |rows| ==> Listed(kind, rows[i]) }

  predicate GoodRow(kind: Classifier, root: string, size: Term -> nat, t: Triple)
    requires Listed(kind, t)
  {
    var from := kind(t.subject).value;
    && (from.Root? && t.property.PeerId? ==> t.target.Literal?)
    && (NeedsOwned(from, t.property) ==> OwnsObject(kind, t))
    && (OwnsObject(kind, t) ==> Relates(t.subject == root, from, t.property, kind(t.target.text).value))
    && size(t.target) <= ONE_MIB
  }

  /** The subjects that a row has redacted, in order. */
  function Named(kind: Classifier, t: Triple): seq<string> {
    [t.subject] + if OwnsObject(kind, t) then [t.target.text] else []
  }

  function AllNamed(kind: Classifier, rows: seq<Triple>): seq<string> {
    if rows == [] then [] else AllNamed(kind, rows[..|rows| - 1]) + Named(kind, rows[|rows| - 1])
  }

  function RowKeys(kind: Classifier, rows: seq<Triple>): seq<string> { KeysAmong(kind, AllNamed(kind, rows)) }

  predicate LinksObject(kind: Classifier, root: string, t: Triple) {
    t.subject == root && OwnsObject(kind, t) && LinkTo(kind(t.target.text).value) == Some(t.property)
  }

  function RowLinks(kind: Classifier, root: string, rows: seq<Triple>): seq<string> {
    if rows == [] then []
    else
      var earlier, t := RowLinks(kind, root, rows[..|rows| - 1]), rows[|rows| - 1];
      if LinksObject(kind, root, t) then earlier + [t.target.text] else earlier
  }

  function RowSubjects(rows: seq<Triple>): set<string> { set t | t in rows :: t.subject }

  /** The subjects of the profile under their own names. */
  function RowOwned(kind: Classifier, root: string, rows: seq<Triple>): set<string> {
    {root} + Elements(RowLinks(kind, root, rows)) + Elements(RowKeys(kind, rows)) + RowSubjects(rows)
  }

  function BytesOf(line: Triple -> nat): Triple -> int { (t: Triple) => line(t) }

  /** The length of the lines, joined by line breaks. */
  function JoinedBytes(line: Triple -> nat, rows: seq<Triple>): nat {
    SumByNonNegative(BytesOf(line), rows);
    if rows == [] then 0 else SumBy(BytesOf(line), rows) + |rows| - 1
  }

  /** What the validator asks, said of the rows. */
  ghost predicate Admissible(kind: Classifier, root: string, size: Term -> nat, line: Triple -> nat, rows: seq<Triple>)
    requires AllListed(kind, rows)
  {
    && |rows| <= MAX_PROFILE_QUADS && |RowOwned(kind, root, rows)| <= MAX_OWNED_SUBJECTS
    && JoinedBytes(line, rows) <= ONE_MIB
    && forall i :: 0 <= i < |rows| ==> GoodRow(kind, root, size, rows[i])
  }

  // ----- the extractor, as a function of the names it gives

  function QuadOf(kind: Classifier, redact: string -> string, size: Term -> nat): Triple -> Quad {
    (t: Triple) => Quad(redact(t.subject), t.property, t.target.Iri?, size(t.target),
                     if OwnsObject(kind, t) then Some(redact(t.target.text)) else None)
  }

  function Built(kind: Classifier, root: string, redact: string -> string, size: Term -> nat, line: Triple -> nat,
                 rows: seq<Triple>): Evidence
  {
    Evidence(Sort(TextLe, Distinctly(Map(redact, RowLinks(kind, root, rows)))),
             Sort(TextLe, Map(redact, RowKeys(kind, rows))), Map(QuadOf(kind, redact, size), rows), JoinedBytes(line, rows))
  }

  /** A renaming that keeps kinds, keeps names apart and numbers the keys in order. */
  ghost predicate Renames(kind: Classifier, redacted: Classifier, root: string, redact: string -> string, rows: seq<Triple>) {
    var names := [root] + AllNamed(kind, rows);
    var keys := RowKeys(kind, rows);
    && kind(root) == Some(Root)
    && (forall s :: s in names ==> KeepsKind(kind, redacted, redact, s))
    && (forall a, b :: a in names && b in names && redact(a) == redact(b) ==> a == b)
    && Map(redact, keys) == Dense(redact(root) + FIXTURE_KEY, |keys|)
  }

  ghost predicate KeepsKind(kind: Classifier, redacted: Classifier, redact: string -> string, s: string) {
    kind(s).Some? && redacted(redact(s)) == kind(s) && redact(s) != ""
  }

  // ----- redaction keeps validity

  ghost predicate RenamesRow(kind: Classifier, redacted: Classifier, root: string, redact: string -> string, t: Triple) {
    && kind(root) == Some(Root) && KeepsKind(kind, redacted, redact, root)
    && KeepsKind(kind, redacted, redact, t.subject)
    && (redact(t.subject) == redact(root) ==> t.subject == root)
    && (OwnsObject(kind, t) ==> KeepsKind(kind, redacted, redact, t.target.text))
  }

  /** A redacted quad is good exactly when its row is. */
  lemma QuadIsGoodIff(kind: Classifier, redacted: Classifier, root: string, redact: string -> string, size: Term -> nat, t: Triple)
    requires Listed(kind, t) && RenamesRow(kind, redacted, root, redact, t)
    ensures GoodQuad(redacted, redact(root), QuadOf(kind, redact, size)(t)) <==> GoodRow(kind, root, size, t)
  {
    var q := QuadOf(kind, redact, size)(t);
    assert redacted(q.subject) == kind(t.subject);
    assert q.subject == redact(root) <==> t.subject == root;
    if OwnsObject(kind, t) { assert redacted(q.owned.value) == kind(t.target.text); }
  }

  lemma {:induction false} NamesOf(kind: Classifier, rows: seq<Triple>, i: nat)
    requires i < |rows|
    ensures rows[i].subject in AllNamed(kind, rows)
    ensures OwnsObject(kind, rows[i]) ==> rows[i].target.text in AllNamed(kind, rows)
  {
    var n := |rows| - 1;
    if i < n {
      NamesOf(kind, rows[..n], i);
    } else {
      assert Named(kind, rows[n])[0] == rows[n].subject;
      if OwnsObject(kind, rows[n]) { assert Named(kind, rows[n])[1] == rows[n].target.text; }
    }
  }

  lemma {:induction false} NamedBy(kind: Classifier, rows: seq<Triple>, s: string) returns (i: nat)
    requires s in AllNamed(kind, rows)
    ensures i < |rows| && (s == rows[i].subject || (OwnsObject(kind, rows[i]) && s == rows[i].target.text))
  {
    var n := |rows| - 1;
    if s in AllNamed(kind, rows[..n]) { i := NamedBy(kind, rows[..n], s); } else { i := n; }
  }

  lemma RowRenamed(kind: Classifier, redacted: Classifier, root: string, redact: string -> string, rows: seq<Triple>, i: nat)
    requires Renames(kind, redacted, root, redact, rows) && i < |rows|
    ensures RenamesRow(kind, redacted, root, redact, rows[i])
  {
    var names := [root] + AllNamed(kind, rows);
    NamesOf(kind, rows, i);
    assert names[0] == root && root in names && rows[i].subject in names;
    if OwnsObject(kind, rows[i]) { assert rows[i].target.text in names; }
  }

  ghost predicate RenamesEach(kind: Classifier, redacted: Classifier, root: string, redact: string -> string, rows: seq<Triple>) {
    forall i :: 0 <= i < |rows| ==> RenamesRow(kind, redacted, root, redact, rows[i])
  }

  lemma LinkRenamed(kind: Classifier, redacted: Classifier, root: string, redact: string -> string, size: Term -> nat, t: Triple)
    requires RenamesRow(kind, redacted, root, redact, t)
    ensures IsRootLink(redacted, redact(root), QuadOf(kind, redact, size)(t)) <==> LinksObject(kind, root, t)
  {
  }

  /** The links that the validator finds are those of the rows. */
  lemma {:induction false} LinksRenamed(kind: Classifier, redacted: Classifier, root: string, redact: string -> string,
                                        size: Term -> nat, rows: seq<Triple>)
    requires RenamesEach(kind, redacted, root, redact, rows)
    ensures Links(redacted, redact(root), Map(QuadOf(kind, redact, size), rows)) == Map(redact, RowLinks(kind, root, rows))
  {
    if rows != [] {
      var n := |rows| - 1;
      var quads := Map(QuadOf(kind, redact, size), rows);
      assert quads[..n] == Map(QuadOf(kind, redact, size), rows[..n]);
      LinksRenamed(kind, redacted, root, redact, size, rows[..n]);
      LinkRenamed(kind, redacted, root, redact, size, rows[n]);
    }
  }

  lemma KeyIsReferenced(kind: Classifier, redacted: Classifier, root: string, redact: string -> string,
                        size: Term -> nat, rows: seq<Triple>, key: string)
    requires RenamesEach(kind, redacted, root, redact, rows) && key in RowKeys(kind, rows)
    ensures redact(key) in Referenced(redacted, Map(QuadOf(kind, redact, size), rows))
  {
    KeysAmongMeaning(kind, AllNamed(kind, rows));
    var quads := Map(QuadOf(kind, redact, size), rows);
    var i := NamedBy(kind, rows, key);
    assert RenamesRow(kind, redacted, root, redact, rows[i]);
    assert quads[i] in quads && quads[i] == QuadOf(kind, redact, size)(rows[i]);
    if key == rows[i].subject {
      assert IsKey(redacted, quads[i].subject);
    } else {
      assert quads[i].owned == Some(redact(key)) && IsKey(redacted, quads[i].owned.value);
    }
  }

  lemma ReferencedIsKey(kind: Classifier, redacted: Classifier, root: string, redact: string -> string,
                        size: Term -> nat, rows: seq<Triple>, x: string)
    requires RenamesEach(kind, redacted, root, redact, rows)
    requires x in Referenced(redacted, Map(QuadOf(kind, redact, size), rows))
    ensures x in Map(redact, RowKeys(kind, rows))
  {
    KeysAmongMeaning(kind, AllNamed(kind, rows));
    var quads := Map(QuadOf(kind, redact, size), rows);
    var q :| q in quads && ((IsKey(redacted, q.subject) && x == q.subject)
                            || (q.owned.Some? && IsKey(redacted, q.owned.value) && x == q.owned.value));
    var i :| 0 <= i < |quads| && quads[i] == q;
    assert RenamesRow(kind, redacted, root, redact, rows[i]);
    NamesOf(kind, rows, i);
    var key := if IsKey(redacted, q.subject) && x == q.subject then rows[i].subject else rows[i].target.text;
    assert IsKey(kind, key) && redact(key) == x;
    MapHas(redact, RowKeys(kind, rows), key);
  }

  lemma MapHas<A, B>(f: A -> B, s: seq<A>, x: A)
    requires x in s
    ensures f(x) in Map(f, s)
  {
    var i :| 0 <= i < |s| && s[i] == x;
    assert Map(f, s)[i] == f(x);
  }

  /** The keys that the quads refer to are the redacted keys of the rows. */
  lemma ReferencedRenamed(kind: Classifier, redacted: Classifier, root: string, redact: string -> string,
                          size: Term -> nat, rows: seq<Triple>)
    requires RenamesEach(kind, redacted, root, redact, rows)
    ensures Referenced(redacted, Map(QuadOf(kind, redact, size), rows)) == Elements(Map(redact, RowKeys(kind, rows)))
  {
    var keys := RowKeys(kind, rows);
    var referenced := Referenced(redacted, Map(QuadOf(kind, redact, size), rows));
    forall x | x in referenced ensures x in Elements(Map(redact, keys)) { ReferencedIsKey(kind, redacted, root, redact, size, rows, x); }
    forall x | x in Elements(Map(redact, keys)) ensures x in referenced {
      var i :| 0 <= i < |keys| && Map(redact, keys)[i] == x;
      KeyIsReferenced(kind, redacted, root, redact, size, rows, keys[i]);
    }
  }

  // ----- as many owned subjects as before

  ghost function Image(f: string -> string, s: set<string>): set<string> { set x | x in s :: f(x) }

  lemma {:induction false} ImageSize(f: string -> string, s: set<string>)
    requires forall a, b :: a in s && b in s && f(a) == f(b) ==> a == b
    ensures |Image(f, s)| == |s|
    decreases |s|
  {
    if s != {} {
      var x :| x in s;
      ImageSize(f, s - {x});
      assert Image(f, s) == Image(f, s - {x}) + {f(x)};
      assert f(x) !in Image(f, s - {x});
    }
  }

  lemma ImageUnion(f: string -> string, a: set<string>, b: set<string>)
    ensures Image(f, a + b) == Image(f, a) + Image(f, b)
  {
  }

  lemma ElementsOfMap(f: string -> string, s: seq<string>)
    ensures Elements(Map(f, s)) == Image(f, Elements(s))
  {
    forall y | y in Image(f, Elements(s)) ensures y in Map(f, s) {
      var x :| x in s && f(x) == y;
      MapHas(f, s, x);
    }
  }

  lemma SubjectsRenamed(kind: Classifier, redact: string -> string, size: Term -> nat, rows: seq<Triple>)
    ensures QuadSubjects(Map(QuadOf(kind, redact, size), rows)) == Image(redact, RowSubjects(rows))
  {
    var quads := Map(QuadOf(kind, redact, size), rows);
    forall x | x in Image(redact, RowSubjects(rows)) ensures x in QuadSubjects(quads) {
      var t :| t in rows && redact(t.subject) == x;
      MapHas(QuadOf(kind, redact, size), rows, t);
    }
  }

  lemma SortedElements(s: seq<string>)
    ensures Elements(Sort(TextLe, s)) == Elements(s) && Elements(Sort(TextLe, Distinctly(s))) == Elements(s)
  {
    SortPermutes(TextLe, s);
    DistinctlyMeaning(s);
    SortPermutes(TextLe, Distinctly(s));
  }

  lemma OwnedRenamed(kind: Classifier, root: string, redact: string -> string, size: Term -> nat, line: Triple -> nat, rows: seq<Triple>)
    ensures Owned(redact(root), Built(kind, root, redact, size, line, rows)) == Image(redact, RowOwned(kind, root, rows))
  {
    var links, keys := RowLinks(kind, root, rows), RowKeys(kind, rows);
    SortedElements(Map(redact, links));
    SortedElements(Map(redact, keys));
    ElementsOfMap(redact, links);
    ElementsOfMap(redact, keys);
    SubjectsRenamed(kind, redact, size, rows);
    ImageUnion(redact, {root}, Elements(links));
    ImageUnion(redact, {root} + Elements(links), Elements(keys));
    ImageUnion(redact, {root} + Elements(links) + Elements(keys), RowSubjects(rows));
  }

  lemma {:induction false} LinksAreNamed(kind: Classifier, root: string, rows: seq<Triple>, s: string)
    requires s in RowLinks(kind, root, rows)
    ensures s in AllNamed(kind, rows)
  {
    var n := |rows| - 1;
    if s in RowLinks(kind, root, rows[..n]) { LinksAreNamed(kind, root, rows[..n], s); } else { NamesOf(kind, rows, n); }
  }

  lemma OwnedIsNamed(kind: Classifier, root: string, rows: seq<Triple>, s: string)
    requires s in RowOwned(kind, root, rows)
    ensures s in [root] + AllNamed(kind, rows)
  {
    KeysAmongMeaning(kind, AllNamed(kind, rows));
    if s in RowLinks(kind, root, rows) {
      LinksAreNamed(kind, root, rows, s);
    } else if t :| t in rows && t.subject == s {
      var i :| 0 <= i < |rows| && rows[i] == t;
      NamesOf(kind, rows, i);
    }
  }

  lemma OwnedSize(kind: Classifier, redacted: Classifier, root: string, redact: string -> string, size: Term -> nat,
                  line: Triple -> nat, rows: seq<Triple>)
    requires Renames(kind, redacted, root, redact, rows)
    ensures |Owned(redact(root), Built(kind, root, redact, size, line, rows))| == |RowOwned(kind, root, rows)|
  {
    OwnedRenamed(kind, root, redact, size, line, rows);
    forall a, b | a in RowOwned(kind, root, rows) && b in RowOwned(kind, root, rows) && redact(a) == redact(b) ensures a == b {
      OwnedIsNamed(kind, root, rows, a);
      OwnedIsNamed(kind, root, rows, b);
    }
    ImageSize(redact, RowOwned(kind, root, rows));
  }

  // ----- what the extractor sorts is sorted

  lemma SortedAndDistinct(s: seq<string>)
    requires Distinct(s) && forall x :: x in s ==> x != ""
    ensures SortedUnique(Sort(TextLe, s))
  {
    var sorted := Sort(TextLe, s);
    SortPermutes(TextLe, s);
    TextLeIsTotalOrder();
    SortSorts(TextLe, s);
    DistinctKeysContents((x: string) => x, s, sorted);
    forall i | 0 <= i < |sorted| ensures InPlace(sorted, i) {
      assert sorted[i] in s;
      if i > 0 { assert TextLe(sorted[i - 1], sorted[i]); }
    }
  }

  lemma KeysRenamed(kind: Classifier, redacted: Classifier, root: string, redact: string -> string, rows: seq<Triple>)
    requires Renames(kind, redacted, root, redact, rows)
    ensures var keys := Map(redact, RowKeys(kind, rows));
            && Distinct(keys) && (forall x :: x in keys ==> x != "" && IsKey(redacted, x))
            && |keys| <= |RowOwned(kind, root, rows)|
  {
    var keys := RowKeys(kind, rows);
    KeysAmongMeaning(kind, AllNamed(kind, rows));
    forall i, j | 0 <= i < j < |keys| ensures redact(keys[i]) != redact(keys[j]) {
      assert keys[i] in keys && keys[j] in keys;
    }
    forall x | x in Map(redact, keys) ensures x != "" && IsKey(redacted, x) {
      KeyRenamed(kind, redacted, root, redact, rows, x);
    }
    DistinctCardinality(keys);
    SubsetSize(Elements(keys), RowOwned(kind, root, rows));
  }

  lemma KeyRenamed(kind: Classifier, redacted: Classifier, root: string, redact: string -> string, rows: seq<Triple>, x: string)
    requires Renames(kind, redacted, root, redact, rows) && x in Map(redact, RowKeys(kind, rows))
    ensures x != "" && IsKey(redacted, x)
  {
    var keys := RowKeys(kind, rows);
    KeysAmongMeaning(kind, AllNamed(kind, rows));
    var i :| 0 <= i < |keys| && Map(redact, keys)[i] == x;
    assert keys[i] in keys && KeepsKind(kind, redacted, redact, keys[i]);
  }

  lemma LinksAreTexts(kind: Classifier, redacted: Classifier, root: string, redact: string -> string, rows: seq<Triple>, x: string)
    requires Renames(kind, redacted, root, redact, rows) && x in Map(redact, RowLinks(kind, root, rows))
    ensures x != ""
  {
    var links := RowLinks(kind, root, rows);
    var i :| 0 <= i < |links| && Map(redact, links)[i] == x;
    LinksAreNamed(kind, root, rows, links[i]);
    assert KeepsKind(kind, redacted, redact, links[i]);
  }

  lemma LinkedIsSorted(kind: Classifier, redacted: Classifier, root: string, redact: string -> string, rows: seq<Triple>)
    requires Renames(kind, redacted, root, redact, rows)
    ensures SortedUnique(Sort(TextLe, Distinctly(Map(redact, RowLinks(kind, root, rows)))))
  {
    var links := Map(redact, RowLinks(kind, root, rows));
    DistinctlyMeaning(links);
    forall x | x in Distinctly(links) ensures x != "" { LinksAreTexts(kind, redacted, root, redact, rows, x); }
    SortedAndDistinct(Distinctly(links));
  }

  lemma DerivedIsDense(kind: Classifier, redacted: Classifier, root: string, redact: string -> string, rows: seq<Triple>)
    requires Renames(kind, redacted, root, redact, rows)
    ensures var derived := Sort(TextLe, Map(redact, RowKeys(kind, rows)));
            && SortedUnique(derived) && (forall i :: 0 <= i < |derived| ==> IsKey(redacted, derived[i]))
            && (|RowOwned(kind, root, rows)| <= MAX_OWNED_SUBJECTS ==> derived == Dense(redact(root) + FIXTURE_KEY, |derived|))
  {
    var keys := Map(redact, RowKeys(kind, rows));
    var derived := Sort(TextLe, keys);
    KeysRenamed(kind, redacted, root, redact, rows);
    SortedAndDistinct(keys);
    SortPermutes(TextLe, keys);
    forall i | 0 <= i < |derived| ensures IsKey(redacted, derived[i]) { assert derived[i] in keys; }
    SortedAliasesAreDenseIff(redact(root) + FIXTURE_KEY, |keys|, keys);
  }

  lemma QuadsAreGoodIff(kind: Classifier, redacted: Classifier, root: string, redact: string -> string, size: Term -> nat,
                        rows: seq<Triple>)
    requires AllListed(kind, rows) && RenamesEach(kind, redacted, root, redact, rows)
    ensures var quads := Map(QuadOf(kind, redact, size), rows);
            (forall i :: 0 <= i < |quads| ==> GoodQuad(redacted, redact(root), quads[i]))
            <==> forall i :: 0 <= i < |rows| ==> GoodRow(kind, root, size, rows[i])
  {
    var quads := Map(QuadOf(kind, redact, size), rows);
    forall i | 0 <= i < |rows| ensures GoodQuad(redacted, redact(root), quads[i]) <==> GoodRow(kind, root, size, rows[i]) {
      QuadIsGoodIff(kind, redacted, root, redact, size, rows[i]);
    }
  }

  /** What is built from the rows of a root is valid exactly when the rows are admissible. */
  lemma BuiltIsGoodIff(kind: Classifier, redacted: Classifier, root: string, redact: string -> string, size: Term -> nat,
                       line: Triple -> nat, rows: seq<Triple>)
    requires AllListed(kind, rows) && Renames(kind, redacted, root, redact, rows)
    ensures GoodEvidence(redacted, redact(root), Built(kind, root, redact, size, line, rows)) <==> Admissible(kind, root, size, line, rows)
  {
    forall i | 0 <= i < |rows| ensures RenamesRow(kind, redacted, root, redact, rows[i]) {
      RowRenamed(kind, redacted, root, redact, rows, i);
    }
    LinkedIsSorted(kind, redacted, root, redact, rows);
    DerivedIsDense(kind, redacted, root, redact, rows);
    OwnedSize(kind, redacted, root, redact, size, line, rows);
    QuadsAreGoodIff(kind, redacted, root, redact, size, rows);
    ReferencedRenamed(kind, redacted, root, redact, size, rows);
    SortedElements(Map(redact, RowKeys(kind, rows)));
    LinksRenamed(kind, redacted, root, redact, size, rows);
  }

  // ----- redaction is such a renaming

  function RedactedKindIn(alias: string): Classifier { (subject: string) => ClassifyRedacted(alias, subject) }

  lemma NamesAreOwned(root: string, rows: seq<Triple>, s: string)
    requires AllListed(KindIn(root), rows) && s in [root] + AllNamed(KindIn(root), rows)
    ensures Owns(root, s)
  {
    if s != root {
      var i := NamedBy(KindIn(root), rows, s);
      assert Listed(KindIn(root), rows[i]);
    }
  }

  lemma {:induction false} FewNames(kind: Classifier, rows: seq<Triple>)
    ensures |AllNamed(kind, rows)| <= 2 * |rows|
  {
    if rows != [] { FewNames(kind, rows[..|rows| - 1]); }
  }

  lemma {:induction false} FewKeys(kind: Classifier, names: seq<string>)
    ensures |KeysAmong(kind, names)| <= |names|
  {
    if names != [] { FewKeys(kind, names[..|names| - 1]); }
  }

  lemma KeyCount(kind: Classifier, rows: seq<Triple>)
    requires |rows| <= MAX_ARRAY_LENGTH
    ensures |RowKeys(kind, rows)| <= MAX_SAFE_INTEGER
  {
    FewNames(kind, rows);
    FewKeys(kind, AllNamed(kind, rows));
  }

  lemma AliasKeepsKind(root: string, alias: string, keys: seq<string>, s: string)
    requires CanonicalRoot(alias) && Owns(root, s) && |keys| <= MAX_SAFE_INTEGER
    requires IsKey(KindIn(root), s) ==> s in keys
    ensures KeepsKind(KindIn(root), RedactedKindIn(alias), AliasIn(root, alias, keys), s)
  {
    if IsKey(KindIn(root), s) { KeyInRange(keys, s); }
    RedactionKeepsKind(root, alias, keys, s);
    RedactedForm(root, alias, keys, s);
  }

  lemma RedactionRenames(root: string, ordinal: nat, rows: seq<Triple>)
    requires AllListed(KindIn(root), rows) && |rows| <= MAX_ARRAY_LENGTH
    ensures Renames(KindIn(root), RedactedKindIn(RootAlias(ordinal)), root,
                    AliasIn(root, RootAlias(ordinal), RowKeys(KindIn(root), rows)), rows)
  {
    var kind, alias, keys := KindIn(root), RootAlias(ordinal), RowKeys(KindIn(root), rows);
    var names := [root] + AllNamed(kind, rows);
    var redact := AliasIn(root, alias, keys);
    RootAliasIsCanonical(ordinal);
    KeyCount(kind, rows);
    KeysAmongMeaning(kind, AllNamed(kind, rows));
    forall s | s in names ensures KeepsKind(kind, RedactedKindIn(alias), redact, s) {
      NamesAreOwned(root, rows, s);
      AliasKeepsKind(root, alias, keys, s);
    }
    forall a, b | a in names && b in names && redact(a) == redact(b) ensures a == b {
      NamesAreOwned(root, rows, a);
      NamesAreOwned(root, rows, b);
      RedactionIsInjective(root, alias, keys, a, b);
    }
    KeyAliasesAreDense(root, alias, AllNamed(kind, rows));
  }

  // ----- the extractor

  /** What the extractor reads and computes about a root. */
  datatype Source = Source(rows: string -> seq<Triple>, keyOf: (string, string) -> Option<string>, size: Term -> nat, line: Triple -> nat)

  /** Rows with the same N-Quad are one row. */
  function RootRows(source: Source, root: string): seq<Triple> { Distinctly(source.rows(root)) }

  /** The pattern that `escapeIri` refuses: ``[<>"{}|^`\\]``, a space or a control character. */
  predicate UnsafeInIri(c: char) {
    c <= ' ' || c == '<' || c == '>' || c == '"' || c == '{' || c == '}' || c == '|' || c == '^' || c == '`' || c == '\\'
  }

  predicate SafeIri(s: string) { forall i :: 0 <= i < |s| ==> !UnsafeInIri(s[i]) }

  /** A row that can be written as an N-Quad; every property of the allowlist can. */
  predicate Writable(t: Triple) { SafeIri(t.subject) && (t.target.Iri? ==> SafeIri(t.target.text)) }

  ghost predicate AllWritable(rows: seq<Triple>) { forall i :: 0 <= i < |rows| ==> Writable(rows[i]) }

  predicate Publishes(source: Source, root: string, t: Triple) {
    t.subject == root && t.property.PublicEncryptionKey? && t.target.Literal? && source.keyOf(root, t.target.text).Some?
  }

  /** The keys that the published material stands for. */
  function Published(source: Source, root: string, rows: seq<Triple>): set<string> {
    set t | t in rows && Publishes(source, root, t) :: source.keyOf(root, t.target.text).value
  }

  /** The rows keep to the grammar and can be written, one is about the root itself, and every key they refer to was published. */
  ghost predicate Usable(source: Source, root: string) {
    var rows := RootRows(source, root);
    && AllListed(KindIn(root), rows) && AllWritable(rows)
    && (exists i :: 0 <= i < |rows| && rows[i].subject == root)
    && (forall key :: key in RowKeys(KindIn(root), rows) ==> key in Published(source, root, rows))
  }

  function EvidenceOf(source: Source, root: string, ordinal: nat): Evidence {
    var rows := RootRows(source, root);
    Built(KindIn(root), root, AliasIn(root, RootAlias(ordinal), RowKeys(KindIn(root), rows)), source.size, source.line, rows)
  }

  ghost predicate AdmissibleRoot(source: Source, root: string)
    requires Usable(source, root)
  {
    Admissible(KindIn(root), root, source.size, source.line, RootRows(source, root))
  }

  /** The validator accepts the evidence of a root exactly when its rows are admissible. */
  lemma EvidenceIsGoodIff(source: Source, root: string, ordinal: nat)
    requires Usable(source, root) && |source.rows(root)| <= MAX_ARRAY_LENGTH
    ensures var alias := RootAlias(ordinal);
            GoodEvidence(RedactedKindIn(alias), alias, EvidenceOf(source, root, ordinal)) <==> AdmissibleRoot(source, root)
  {
    var rows := RootRows(source, root);
    DistinctlyAtMost(source.rows(root));
    RedactionRenames(root, ordinal, rows);
    BuiltIsGoodIff(KindIn(root), RedactedKindIn(RootAlias(ordinal)), root,
                   AliasIn(root, RootAlias(ordinal), RowKeys(KindIn(root), rows)), source.size, source.line, rows);
  }

  const AGENT_TYPE := "https://dkg.network/ontology#Agent"

  lemma CanonicalRootIsSafe(root: string)
    requires CanonicalRoot(root)
    ensures SafeIri(root)
  {
    forall i | 0 <= i < |root| ensures !UnsafeInIri(root[i]) {
      if i < 16 { assert root[i] == AGENT[i]; } else { assert IsHex(root[i]); }
    }
  }

  lemma AgentTypeIsForeign(root: string)
    requires CanonicalRoot(root)
    ensures SafeIri(AGENT_TYPE) && !Owns(root, AGENT_TYPE)
  {
    assert AGENT_TYPE[0] == 'h' && root[0] == AGENT[0] == 'd';
    if Owns(root, AGENT_TYPE) { OwnedHasRoot(root, AGENT_TYPE); }
  }

  /** An agent that was seen, and that links a capability by a text instead of a subject of its own. */
  function LooseLink(root: string, seen: string, text: string): seq<Triple> {
    [Triple(root, RdfType, Iri(AGENT_TYPE)), Triple(root, LastSeen, Literal(seen)), Triple(root, Capabilities, Literal(text))]
  }

  function LooseSource(root: string, seen: string, text: string): Source {
    Source(_ => LooseLink(root, seen, text), (_, _) => None, _ => 0, _ => 0)
  }

  lemma {:induction false} DistinctIsDistinctly<T(!new)>(s: seq<T>)
    requires Distinct(s)
    ensures Distinctly(s) == s
  {
    if s != [] {
      DistinctIsDistinctly(s[..|s| - 1]);
      assert s == s[..|s| - 1] + [s[|s| - 1]];
    }
  }

  lemma LooseLinkHasNoKeys(root: string, seen: string, text: string)
    requires CanonicalRoot(root)
    ensures RowKeys(KindIn(root), LooseLink(root, seen, text)) == []
  {
    var kind, rows := KindIn(root), LooseLink(root, seen, text);
    AgentTypeIsForeign(root);
    KeysAmongMeaning(kind, AllNamed(kind, rows));
    var keys := RowKeys(kind, rows);
    if keys != [] {
      assert keys[0] in keys;
      var i := NamedBy(kind, rows, keys[0]);
    }
  }

  /** The extractor's own checks are not enough: for every wallet root they let a link to a text through. */
  lemma LooseLinkIsRefused(root: string, seen: string, text: string)
    requires CanonicalRoot(root)
    ensures Usable(LooseSource(root, seen, text), root) && !AdmissibleRoot(LooseSource(root, seen, text), root)
  {
    var source := LooseSource(root, seen, text);
    var kind, rows := KindIn(root), LooseLink(root, seen, text);
    DistinctIsDistinctly(rows);
    CanonicalRootIsSafe(root);
    AgentTypeIsForeign(root);
    assert kind(root) == Some(Root);
    forall i | 0 <= i < |rows| ensures Listed(kind, rows[i]) && Writable(rows[i]) { assert rows[i].subject == root; }
    assert rows[0].subject == root;
    LooseLinkHasNoKeys(root, seen, text);
    assert !GoodRow(kind, root, source.size, rows[2]);
  }

  // ----- the extractor's loop

  lemma {:induction false} KeysPrefix(kind: Classifier, names: seq<string>, n: nat)
    requires n <= |names|
    ensures KeysAmong(kind, names[..n]) <= KeysAmong(kind, names)
  {
    if n < |names| {
      assert names[..|names| - 1][..n] == names[..n];
      KeysPrefix(kind, names[..|names| - 1], n);
    } else {
      assert names[..n] == names;
    }
  }

  lemma {:induction false} NamesPrefix(kind: Classifier, rows: seq<Triple>, n: nat)
    requires n <= |rows|
    ensures AllNamed(kind, rows[..n]) <= AllNamed(kind, rows)
  {
    if n < |rows| {
      assert rows[..|rows| - 1][..n] == rows[..n];
      NamesPrefix(kind, rows[..|rows| - 1], n);
    } else {
      assert rows[..n] == rows;
    }
  }

  lemma RowKeysPrefix(kind: Classifier, rows: seq<Triple>, n: nat)
    requires n <= |rows|
    ensures RowKeys(kind, rows[..n]) <= RowKeys(kind, rows)
  {
    NamesPrefix(kind, rows, n);
    assert AllNamed(kind, rows)[..|AllNamed(kind, rows[..n])|] == AllNamed(kind, rows[..n]);
    KeysPrefix(kind, AllNamed(kind, rows), |AllNamed(kind, rows[..n])|);
  }

  /** The keys that are known after a row: first its subject, then its object. */
  function KeysWith(kind: Classifier, keys: seq<string>, t: Triple): seq<string> {
    var first := WithKey(kind, keys, t.subject);
    if OwnsObject(kind, t) then WithKey(kind, first, t.target.text) else first
  }

  lemma KeysAppend(kind: Classifier, names: seq<string>, s: string)
    ensures KeysAmong(kind, names + [s]) == WithKey(kind, KeysAmong(kind, names), s)
  {
    assert (names + [s])[..|names|] == names;
  }

  lemma RowKeysStep(kind: Classifier, rows: seq<Triple>, i: nat)
    requires i < |rows|
    ensures RowKeys(kind, rows[..i + 1]) == KeysWith(kind, RowKeys(kind, rows[..i]), rows[i])
  {
    var names, t := AllNamed(kind, rows[..i]), rows[i];
    assert rows[..i + 1][..i] == rows[..i];
    KeysAppend(kind, names, t.subject);
    if OwnsObject(kind, t) {
      KeysAppend(kind, names + [t.subject], t.target.text);
      assert names + Named(kind, t) == names + [t.subject] + [t.target.text];
    } else {
      assert names + Named(kind, t) == names + [t.subject];
    }
  }

  lemma SameAlias(root: string, alias: string, keys: seq<string>, all: seq<string>, s: string)
    requires Owns(root, s) && keys <= all && (Classify(root, s) == Some(X25519) ==> s in keys)
    ensures Redacted(root, alias, keys, s) == Redacted(root, alias, all, s)
  {
    if s in keys {
      IndexOfStays(keys, all[|keys|..], s);
      assert keys + all[|keys|..] == all;
    }
    IndexGivesAlias(root, alias, keys, all, s);
  }

  /** Asks for an alias while `all` are the keys that will be met in the end. */
  method Rename(redactor: Redactor, s: string, ghost all: seq<string>) returns (r: string)
    requires redactor.Valid() && Owns(redactor.root, s)
    requires WithKey(KindIn(redactor.root), Keys(redactor.root, redactor.requests), s) <= all
    modifies redactor
    ensures redactor.Valid()
    ensures Keys(redactor.root, redactor.requests) ==
            WithKey(KindIn(redactor.root), old(Keys(redactor.root, redactor.requests)), s)
    ensures r == AliasIn(redactor.root, redactor.alias, all)(s)
  {
    ghost var before := redactor.requests;
    var result := redactor.Redact(s);
    assert (before + [s])[..|before|] == before;
    KeysMeaning(redactor.root, redactor.requests);
    SameAlias(redactor.root, redactor.alias, Keys(redactor.root, redactor.requests), all, s);
    r := result.value;
  }

  /** Lines 274 to 306: the quad of one row. */
  method RedactRow(redactor: Redactor, t: Triple, size: Term -> nat, ghost keys: seq<string>, ghost all: seq<string>)
    returns (q: Quad)
    requires redactor.Valid() && Listed(KindIn(redactor.root), t)
    requires Keys(redactor.root, redactor.requests) == keys && KeysWith(KindIn(redactor.root), keys, t) <= all
    modifies redactor
    ensures redactor.Valid() && Keys(redactor.root, redactor.requests) == KeysWith(KindIn(redactor.root), keys, t)
    ensures q == QuadOf(KindIn(redactor.root), AliasIn(redactor.root, redactor.alias, all), size)(t)
  {
    var subject := Rename(redactor, t.subject, all);
    var owned: Option<string> := None;
    if t.target.Iri? && Classify(redactor.root, t.target.text).Some? {
      var target := Rename(redactor, t.target.text, all);
      owned := Some(target);
    }
    return Quad(subject, t.property, t.target.Iri?, size(t.target), owned);
  }

  lemma LinkStep(kind: Classifier, root: string, redact: string -> string, rows: seq<Triple>, i: nat)
    requires i < |rows|
    ensures var before, t := Map(redact, RowLinks(kind, root, rows[..i])), rows[i];
            Map(redact, RowLinks(kind, root, rows[..i + 1])) ==
            if LinksObject(kind, root, t) then before + [redact(t.target.text)] else before
  {
    assert rows[..i + 1][..i] == rows[..i];
  }

  lemma DistinctlyAppend(s: seq<string>, x: string)
    ensures Distinctly(s + [x]) == if x in Distinctly(s) then Distinctly(s) else Distinctly(s) + [x]
  {
    assert (s + [x])[..|s|] == s;
  }

  ghost predicate RedactedRows(kind: Classifier, root: string, redact: string -> string, size: Term -> nat, rows: seq<Triple>,
                               quads: seq<Quad>, referenced: seq<string>, linked: seq<string>) {
    && quads == Map(QuadOf(kind, redact, size), rows)
    && referenced == RowKeys(kind, rows)
    && linked == Distinctly(Map(redact, RowLinks(kind, root, rows)))
  }

  lemma RedactedStep(kind: Classifier, root: string, redact: string -> string, size: Term -> nat, rows: seq<Triple>, i: nat,
                     quads: seq<Quad>, referenced: seq<string>, linked: seq<string>, linked': seq<string>)
    requires i < |rows| && RedactedRows(kind, root, redact, size, rows[..i], quads, referenced, linked)
    requires var t := rows[i];
             linked' == if LinksObject(kind, root, t) && redact(t.target.text) !in linked then linked + [redact(t.target.text)] else linked
    ensures RedactedRows(kind, root, redact, size, rows[..i + 1], quads + [QuadOf(kind, redact, size)(rows[i])],
                         KeysWith(kind, referenced, rows[i]), linked')
  {
    var t := rows[i];
    assert rows[..i + 1] == rows[..i] + [t];
    RowKeysStep(kind, rows, i);
    LinkStep(kind, root, redact, rows, i);
    if LinksObject(kind, root, t) { DistinctlyAppend(Map(redact, RowLinks(kind, root, rows[..i])), redact(t.target.text)); }
  }

  /** Lines 250 to 308: all rows of a root. */
  method RedactRows(redactor: Redactor, rows: seq<Triple>, size: Term -> nat)
    returns (quads: seq<Quad>, referenced: seq<string>, linked: seq<string>)
    requires redactor.Valid() && redactor.requests == [] && AllListed(KindIn(redactor.root), rows)
    modifies redactor
    ensures redactor.Valid() && Keys(redactor.root, redactor.requests) == referenced
    ensures RedactedRows(KindIn(redactor.root), redactor.root,
                         AliasIn(redactor.root, redactor.alias, RowKeys(KindIn(redactor.root), rows)), size, rows,
                         quads, referenced, linked)
  {
    var kind := KindIn(redactor.root);
    ghost var all := RowKeys(kind, rows);
    ghost var redact := AliasIn(redactor.root, redactor.alias, all);
    quads, referenced, linked := [], [], [];
    for i := 0 to |rows|
      invariant redactor.Valid() && Keys(redactor.root, redactor.requests) == referenced
      invariant RedactedRows(kind, redactor.root, redact, size, rows[..i], quads, referenced, linked)
    {
      var t := rows[i];
      RowKeysStep(kind, rows, i);
      RowKeysPrefix(kind, rows, i + 1);
      var q := RedactRow(redactor, t, size, referenced, all);
      ghost var before := linked;
      if LinksObject(kind, redactor.root, t) && q.owned.value !in linked { linked := linked + [q.owned.value]; }
      RedactedStep(kind, redactor.root, redact, size, rows, i, quads, referenced, before, linked);
      quads, referenced := quads + [q], KeysWith(kind, referenced, t);
    }
    assert rows[..|rows|] == rows;
  }

  /** Asks for a key that was asked for before. */
  method RenameAgain(redactor: Redactor, key: string, ghost keys: seq<string>) returns (r: string)
    requires redactor.Valid() && Keys(redactor.root, redactor.requests) == keys && key in keys
    modifies redactor
    ensures redactor.Valid() && Keys(redactor.root, redactor.requests) == keys
    ensures r == AliasIn(redactor.root, redactor.alias, keys)(key)
  {
    KeysMeaning(redactor.root, redactor.requests);
    r := Rename(redactor, key, keys);
  }

  method RenameAll(redactor: Redactor, names: seq<string>) returns (aliases: seq<string>)
    requires redactor.Valid() && Keys(redactor.root, redactor.requests) == names
    modifies redactor
    ensures aliases == Map(AliasIn(redactor.root, redactor.alias, names), names)
  {
    ghost var redact := AliasIn(redactor.root, redactor.alias, names);
    aliases := [];
    for i := 0 to |names|
      invariant redactor.Valid() && Keys(redactor.root, redactor.requests) == names
      invariant |aliases| == i && forall j :: 0 <= j < i ==> aliases[j] == redact(names[j])
    {
      var alias := RenameAgain(redactor, names[i], names);
      aliases := aliases + [alias];
    }
  }

  method CheckRows(kind: Classifier, root: string, rows: seq<Triple>) returns (ok: bool)
    ensures ok <==> AllListed(kind, rows) && AllWritable(rows) && exists i :: 0 <= i < |rows| && rows[i].subject == root
  {
    var hasRoot := false;
    for i := 0 to |rows|
      invariant forall j :: 0 <= j < i ==> Listed(kind, rows[j]) && Writable(rows[j])
      invariant hasRoot <==> exists j :: 0 <= j < i && rows[j].subject == root
    {
      if !Listed(kind, rows[i]) || !Writable(rows[i]) { return false; }
      hasRoot := hasRoot || rows[i].subject == root;
    }
    return hasRoot;
  }

  /** Lines 221 to 333 of extract-rdf.ts, with the row check of lines 405 to 418; none is an exception. */
  method BuildEvidence(source: Source, root: string, ordinal: nat) returns (result: Option<Evidence>)
    ensures result.Some? <==> Usable(source, root)
    ensures result.Some? <==> Readable(source, root)
    ensures result.Some? ==> result.value == EvidenceOf(source, root, ordinal)
    ensures result.Some? ==> Redacts(result.value, source, root, RootAlias(ordinal))
  {
    UsableIff(source, root);
    if Usable(source, root) { EvidenceRedacts(source, root, ordinal); }
    var rows := RootRows(source, root);
    var ok := CheckRows(KindIn(root), root, rows);
    if !ok { return None; }
    var redactor := new Redactor(root, RootAlias(ordinal));
    var quads, referenced, linked := RedactRows(redactor, rows, source.size);
    var published := Published(source, root, rows);
    if exists key :: key in referenced && key !in published { return None; }
    var derived := RenameAll(redactor, referenced);
    return Some(Evidence(Sort(TextLe, linked), Sort(TextLe, derived), quads, JoinedBytes(source.line, rows)));
  }

  // ----- what the validator accepts, as relations between subjects

  /** The properties that may be said of a subject of the kind. */
  ghost function Allowlist(kind: Kind): set<Property> {
    match kind
    case Root =>
      {RdfType, Name, Description, PeerId, NodeRole, PublicKey, RelayAddress, AgentAddress, Multiaddr, LastSeen,
       PublicEncryptionKey, EncryptionKeyAlgorithm, EncryptionKeyProof, Framework,
       Capabilities, OffersSkill, WasGeneratedBy, HostingProfile}
    case Capability => {RdfType, Name}
    case Offering => {RdfType, Skill, PricePerCall, Currency, SuccessRate, Pricing}
    case Registration => {RdfType, AtTime}
    case Hosting => {RdfType, ContextGraphsServed, ParanetsServed}
    case X25519 => {RevokedAt, RevokedBy, EncryptionKeyRevocationProof}
  }

  /** A root links its nested subjects, each by the property of its kind, and a key is revoked by its root. */
  ghost predicate Related(from: Kind, p: Property, to: Kind) {
    || (from == Root && ((p == Capabilities && to == Capability) || (p == OffersSkill && to == Offering)))
    || (from == Root && ((p == WasGeneratedBy && to == Registration) || (p == HostingProfile && to == Hosting)))
    || (from == X25519 && p == RevokedBy && to == Root)
  }

  /**
   * A quad says something allowed of a subject of the grammar, and a peer id as a literal. A property that relates
   * subjects has a subject as its object, and between subjects there is nothing but these relations.
   */
  ghost predicate QuadRules(kind: Classifier, root: string, q: Quad) {
    && kind(q.subject).Some? && q.bytes <= ONE_MIB
    && var from := kind(q.subject).value;
    && q.property in Allowlist(from)
    && (q.property == PeerId ==> !q.isIri)
    && ((exists to :: Related(from, q.property, to)) ==> q.owned.Some?)
    && (q.owned.Some? ==>
          && q.isIri && kind(q.owned.value).Some?
          && var to := kind(q.owned.value).value;
          if to == Root then Related(from, q.property, Root) else q.subject == root && Related(Root, q.property, to))
  }

  lemma QuadRulesIff(kind: Classifier, root: string, q: Quad)
    ensures GoodQuad(kind, root, q) <==> QuadRules(kind, root, q)
  {
    if kind(q.subject).Some? {
      var from := kind(q.subject).value;
      assert Allowed(from, q.property) <==> q.property in Allowlist(from);
      NeedsIff(from, q.property);
      if q.owned.Some? && kind(q.owned.value).Some? { RelatesIff(q.subject == root, from, q.property, kind(q.owned.value).value); }
    }
  }

  lemma NeedsIff(from: Kind, p: Property)
    ensures NeedsOwned(from, p) <==> exists to :: Related(from, p, to)
  {
    assert Related(Root, Capabilities, Capability) && Related(Root, OffersSkill, Offering);
    assert Related(Root, WasGeneratedBy, Registration) && Related(Root, HostingProfile, Hosting);
    assert Related(X25519, RevokedBy, Root);
  }

  lemma RelatesIff(fromRoot: bool, from: Kind, p: Property, to: Kind)
    ensures Relates(fromRoot, from, p, to) <==> if to == Root then Related(from, p, Root) else fromRoot && Related(Root, p, to)
    ensures LinkTo(to) == Some(p) <==> Related(Root, p, to)
  {
  }

  ghost predicate LinkedBy(kind: Classifier, root: string, quads: seq<Quad>, x: string) {
    && kind(x).Some?
    && exists i :: 0 <= i < |quads| && quads[i].subject == root && quads[i].owned == Some(x)
                && Related(Root, quads[i].property, kind(x).value)
  }

  ghost predicate KeyIn(kind: Classifier, quads: seq<Quad>, x: string) {
    kind(x) == Some(X25519) && exists i :: 0 <= i < |quads| && (quads[i].subject == x || quads[i].owned == Some(x))
  }

  ghost predicate Increasing(s: seq<string>) {
    (forall i :: 0 <= i < |s| ==> s[i] != "") && forall i :: 0 < i < |s| ==> TextLess(s[i - 1], s[i])
  }

  /** The sorted links are exactly the subjects that the root links, and the numbered keys exactly those the quads name. */
  ghost predicate Accepted(kind: Classifier, root: string, e: Evidence) {
    && Increasing(e.linked) && Increasing(e.derived)
    && (forall x :: x in e.linked <==> LinkedBy(kind, root, e.quads, x))
    && (forall x :: x in e.derived <==> KeyIn(kind, e.quads, x))
    && (forall i :: 0 <= i < |e.derived| ==> e.derived[i] == root + FIXTURE_KEY + Padded(i + 1))
    && (forall i :: 0 <= i < |e.quads| ==> QuadRules(kind, root, e.quads[i]))
    && |e.quads| <= MAX_PROFILE_QUADS && |Owned(root, e)| <= MAX_OWNED_SUBJECTS && e.bytes <= ONE_MIB
  }

  lemma IncreasingIff(s: seq<string>)
    ensures SortedUnique(s) <==> Increasing(s)
  {
    if SortedUnique(s) {
      forall i | 0 <= i < |s| ensures s[i] != "" && (i > 0 ==> TextLess(s[i - 1], s[i])) { assert InPlace(s, i); }
    }
  }

  lemma {:induction false} IncreasesTo(s: seq<string>, i: nat, j: nat)
    requires Increasing(s) && i < j < |s|
    ensures TextLess(s[i], s[j])
    decreases j
  {
    if i + 1 < j {
      IncreasesTo(s, i, j - 1);
      TextTransitive(s[i], s[j - 1], s[j]);
    }
  }

  /** Increasing lists of the same texts are equal. */
  lemma IncreasingUnique(a: seq<string>, b: seq<string>)
    requires Increasing(a) && Increasing(b) && forall x :: x in a <==> x in b
    ensures a == b
  {
    forall i, j | 0 <= i < j < |a| ensures TextLess(a[i], a[j]) { IncreasesTo(a, i, j); }
    forall i, j | 0 <= i < j < |b| ensures TextLess(b[i], b[j]) { IncreasesTo(b, i, j); }
    TextLessIsAsymmetric();
    StrictlySortedUnique(TextLess, a, b);
  }

  lemma {:induction false} LinksSay(kind: Classifier, root: string, quads: seq<Quad>, x: string)
    ensures x in Links(kind, root, quads) <==> LinkedBy(kind, root, quads, x)
  {
    if quads != [] {
      var n := |quads| - 1;
      var front, q := quads[..n], quads[n];
      LinksSay(kind, root, front, x);
      assert forall i :: 0 <= i < n ==> quads[i] == front[i];
      if q.owned.Some? && kind(q.owned.value).Some? { RelatesIff(true, Root, q.property, kind(q.owned.value).value); }
    }
  }

  lemma ReferencedSay(kind: Classifier, quads: seq<Quad>, x: string)
    ensures x in Referenced(kind, quads) <==> KeyIn(kind, quads, x)
  {
    if i :| 0 <= i < |quads| && (quads[i].subject == x || quads[i].owned == Some(x)) { assert quads[i] in quads; }
  }

  lemma LinkedIff(kind: Classifier, root: string, e: Evidence)
    requires Increasing(e.linked)
    ensures e.linked == Sort(TextLe, Distinctly(Links(kind, root, e.quads))) <==>
            forall x :: x in e.linked <==> LinkedBy(kind, root, e.quads, x)
  {
    var links := Links(kind, root, e.quads);
    var sorted := Sort(TextLe, Distinctly(links));
    SortedElements(links);
    DistinctlyMeaning(links);
    forall x ensures x in sorted <==> LinkedBy(kind, root, e.quads, x) {
      LinksSay(kind, root, e.quads, x);
      assert x in Elements(sorted) <==> x in Elements(links);
    }
    if forall x :: x in e.linked <==> LinkedBy(kind, root, e.quads, x) {
      forall x | x in Distinctly(links) ensures x != "" { assert x in Elements(sorted) && x in e.linked; }
      SortedAndDistinct(Distinctly(links));
      IncreasingIff(sorted);
      IncreasingUnique(e.linked, sorted);
    }
  }

  lemma DerivedIff(kind: Classifier, root: string, e: Evidence)
    ensures (forall i :: 0 <= i < |e.derived| ==> IsKey(kind, e.derived[i])) && Elements(e.derived) == Referenced(kind, e.quads)
            <==> forall x :: x in e.derived <==> KeyIn(kind, e.quads, x)
    ensures e.derived == Dense(root + FIXTURE_KEY, |e.derived|) <==>
            forall i :: 0 <= i < |e.derived| ==> e.derived[i] == root + FIXTURE_KEY + Padded(i + 1)
  {
    DenseAt(root + FIXTURE_KEY, |e.derived|);
    forall x ensures x in Referenced(kind, e.quads) <==> KeyIn(kind, e.quads, x) { ReferencedSay(kind, e.quads, x); }
    if Elements(e.derived) == Referenced(kind, e.quads) {
      forall x ensures x in e.derived <==> KeyIn(kind, e.quads, x) { assert x in e.derived <==> x in Elements(e.derived); }
    }
    if forall x :: x in e.derived <==> KeyIn(kind, e.quads, x) {
      forall i | 0 <= i < |e.derived| ensures IsKey(kind, e.derived[i]) { assert e.derived[i] in e.derived; }
    }
  }

  lemma AcceptedIff(kind: Classifier, root: string, e: Evidence)
    ensures GoodEvidence(kind, root, e) <==> Accepted(kind, root, e)
  {
    IncreasingIff(e.linked);
    IncreasingIff(e.derived);
    if Increasing(e.linked) { LinkedIff(kind, root, e); }
    DerivedIff(kind, root, e);
    forall i | 0 <= i < |e.quads| ensures GoodQuad(kind, root, e.quads[i]) <==> QuadRules(kind, root, e.quads[i]) {
      QuadRulesIff(kind, root, e.quads[i]);
    }
  }

  // ----- what the extractor makes of the rows

  ghost predicate SafeText(s: string) {
    forall i :: 0 <= i < |s| ==> s[i] > ' ' && s[i] !in ['<', '>', '"', '{', '}', '|', '^', '`', '\\']
  }

  ghost predicate ReadableRow(root: string, t: Triple) {
    && Classify(root, t.subject).Some? && t.property in Allowlist(Classify(root, t.subject).value)
    && SafeText(t.subject) && (t.target.Iri? ==> SafeText(t.target.text))
  }

  ghost predicate Mentions(rows: seq<Triple>, s: string) {
    exists i :: 0 <= i < |rows| && (rows[i].subject == s || rows[i].target == Iri(s))
  }

  ghost predicate PublishesKey(source: Source, root: string, key: string) {
    exists i :: 0 <= i < |source.rows(root)| && PublishedBy(source, root, source.rows(root)[i], key)
  }

  ghost predicate PublishedBy(source: Source, root: string, t: Triple, key: string) {
    t.subject == root && t.property == PublicEncryptionKey && t.target.Literal? && source.keyOf(root, t.target.text) == Some(key)
  }

  /** Every row is readable, one is about the root, and every key that a row mentions was published by the root. */
  ghost predicate Readable(source: Source, root: string) {
    var rows := source.rows(root);
    && (forall i :: 0 <= i < |rows| ==> ReadableRow(root, rows[i]))
    && (exists i :: 0 <= i < |rows| && rows[i].subject == root)
    && forall key :: Mentions(rows, key) && Classify(root, key) == Some(X25519) ==> PublishesKey(source, root, key)
  }

  lemma RowIsReadable(root: string, t: Triple)
    ensures Listed(KindIn(root), t) && Writable(t) <==> ReadableRow(root, t)
  {
    if Classify(root, t.subject).Some? {
      assert Allowed(Classify(root, t.subject).value, t.property) <==> t.property in Allowlist(Classify(root, t.subject).value);
    }
    SafeIff(t.subject);
    SafeIff(t.target.text);
  }

  lemma SafeIff(s: string)
    ensures SafeIri(s) <==> SafeText(s)
  {
    forall i | 0 <= i < |s|
      ensures UnsafeInIri(s[i]) <==> !(s[i] > ' ' && s[i] !in ['<', '>', '"', '{', '}', '|', '^', '`', '\\'])
    {
    }
  }

  lemma {:induction false} NamedSays(kind: Classifier, rows: seq<Triple>, s: string)
    requires kind(s).Some?
    ensures s in AllNamed(kind, rows) <==> Mentions(rows, s)
  {
    if rows != [] {
      var n := |rows| - 1;
      NamedSays(kind, rows[..n], s);
      assert forall i :: 0 <= i < n ==> rows[i] == rows[..n][i];
    }
  }

  lemma MentionsDistinct(rows: seq<Triple>, s: string)
    ensures Mentions(Distinctly(rows), s) <==> Mentions(rows, s)
  {
    var distinct := Distinctly(rows);
    DistinctlyMeaning(rows);
    if i :| 0 <= i < |rows| && (rows[i].subject == s || rows[i].target == Iri(s)) {
      assert rows[i] in distinct;
      var j :| 0 <= j < |distinct| && distinct[j] == rows[i];
    }
    if i :| 0 <= i < |distinct| && (distinct[i].subject == s || distinct[i].target == Iri(s)) {
      assert distinct[i] in rows;
      var j :| 0 <= j < |rows| && rows[j] == distinct[i];
    }
  }

  lemma KeySaysPublished(source: Source, root: string, key: string)
    ensures key in Published(source, root, RootRows(source, root)) <==> PublishesKey(source, root, key)
  {
    var rows := source.rows(root);
    DistinctlyMeaning(rows);
    if i :| 0 <= i < |rows| && PublishedBy(source, root, rows[i], key) { assert rows[i] in RootRows(source, root); }
    if key in Published(source, root, RootRows(source, root)) {
      var t :| t in RootRows(source, root) && Publishes(source, root, t) && source.keyOf(root, t.target.text).value == key;
      var i :| 0 <= i < |rows| && rows[i] == t;
      assert PublishedBy(source, root, rows[i], key);
    }
  }

  lemma KeySaysNamed(source: Source, root: string, key: string)
    ensures key in RowKeys(KindIn(root), RootRows(source, root)) <==>
            Mentions(source.rows(root), key) && Classify(root, key) == Some(X25519)
  {
    var rows := RootRows(source, root);
    KeysAmongMeaning(KindIn(root), AllNamed(KindIn(root), rows));
    MentionsDistinct(source.rows(root), key);
    if Classify(root, key) == Some(X25519) { NamedSays(KindIn(root), rows, key); }
  }

  lemma RowsAreReadable(source: Source, root: string)
    ensures AllListed(KindIn(root), RootRows(source, root)) && AllWritable(RootRows(source, root)) <==>
            forall i :: 0 <= i < |source.rows(root)| ==> ReadableRow(root, source.rows(root)[i])
  {
    var rows, distinct := source.rows(root), RootRows(source, root);
    DistinctlyMeaning(rows);
    forall t ensures Listed(KindIn(root), t) && Writable(t) <==> ReadableRow(root, t) { RowIsReadable(root, t); }
    if AllListed(KindIn(root), distinct) && AllWritable(distinct) {
      forall i | 0 <= i < |rows| ensures ReadableRow(root, rows[i]) {
        assert rows[i] in distinct;
        var j :| 0 <= j < |distinct| && distinct[j] == rows[i];
      }
    }
    if forall i :: 0 <= i < |rows| ==> ReadableRow(root, rows[i]) {
      forall j | 0 <= j < |distinct| ensures Listed(KindIn(root), distinct[j]) && Writable(distinct[j]) {
        assert distinct[j] in rows;
        var i :| 0 <= i < |rows| && rows[i] == distinct[j];
      }
    }
  }

  lemma RootIsMentioned(source: Source, root: string)
    ensures (exists i :: 0 <= i < |RootRows(source, root)| && RootRows(source, root)[i].subject == root) <==>
            exists i :: 0 <= i < |source.rows(root)| && source.rows(root)[i].subject == root
  {
    var rows, distinct := source.rows(root), RootRows(source, root);
    DistinctlyMeaning(rows);
    if i :| 0 <= i < |rows| && rows[i].subject == root {
      assert rows[i] in distinct;
      var j :| 0 <= j < |distinct| && distinct[j] == rows[i];
    }
    if i :| 0 <= i < |distinct| && distinct[i].subject == root {
      assert distinct[i] in rows;
      var j :| 0 <= j < |rows| && rows[j] == distinct[i];
    }
  }

  lemma UsableIff(source: Source, root: string)
    ensures Usable(source, root) <==> Readable(source, root)
  {
    RowsAreReadable(source, root);
    RootIsMentioned(source, root);
    forall key
      ensures key in RowKeys(KindIn(root), RootRows(source, root)) <==>
              Mentions(source.rows(root), key) && Classify(root, key) == Some(X25519)
      ensures key in Published(source, root, RootRows(source, root)) <==> PublishesKey(source, root, key)
    {
      KeySaysNamed(source, root, key);
      KeySaysPublished(source, root, key);
    }
  }

  ghost predicate FirstAt(names: seq<string>, s: string, k: int) { 0 <= k < |names| && names[k] == s && s !in names[..k] }

  ghost function KeysBefore(root: string, names: seq<string>, k: int): set<string>
    requires 0 <= k <= |names|
  {
    set s | s in names[..k] && Classify(root, s) == Some(X25519)
  }

  /** A key gets the number of keys named before it, plus one; any other subject keeps what follows the root. */
  ghost predicate IsAlias(root: string, alias: string, names: seq<string>, s: string, x: string) {
    if Classify(root, s) == Some(X25519)
    then exists k :: NumberedAs(root, alias, names, s, x, k)
    else root <= s && x == alias + s[|root|..]
  }

  ghost predicate NumberedAs(root: string, alias: string, names: seq<string>, s: string, x: string, k: int) {
    FirstAt(names, s, k) && x == KeyAlias(alias, |KeysBefore(root, names, k)| + 1)
  }

  /** The subjects that the rows name, row by row, the subject before the object. */
  lemma NamesInOrder(kind: Classifier, rows: seq<Triple>, t: Triple)
    ensures AllNamed(kind, []) == []
    ensures AllNamed(kind, rows + [t]) ==
            AllNamed(kind, rows) + [t.subject] + if t.target.Iri? && kind(t.target.text).Some? then [t.target.text] else []
  {
    assert (rows + [t])[..|rows|] == rows;
  }

  ghost predicate RedactsRow(q: Quad, t: Triple, source: Source, root: string, alias: string, names: seq<string>) {
    && q.property == t.property && (q.isIri <==> t.target.Iri?) && q.bytes == source.size(t.target)
    && IsAlias(root, alias, names, t.subject, q.subject)
    && (q.owned.Some? <==> t.target.Iri? && Classify(root, t.target.text).Some?)
    && (q.owned.Some? ==> IsAlias(root, alias, names, t.target.text, q.owned.value))
  }

  /** The length of a line and its line break. */
  function LineAndBreak(line: Triple -> nat): Triple -> int { (t: Triple) => line(t) + 1 }

  lemma {:induction false} LinesAndBreaks(line: Triple -> nat, rows: seq<Triple>)
    ensures SumBy(LineAndBreak(line), rows) == SumBy(BytesOf(line), rows) + |rows|
  {
    if rows != [] { LinesAndBreaks(line, rows[..|rows| - 1]); }
  }

  /** One quad per distinct row, in order, the same but for the names; the last line has no line break. */
  ghost predicate Redacts(e: Evidence, source: Source, root: string, alias: string) {
    var rows := RootRows(source, root);
    && |e.quads| == |rows| && e.bytes == SumBy(LineAndBreak(source.line), rows) - 1
    && forall i :: 0 <= i < |rows| ==> RedactsRow(e.quads[i], rows[i], source, root, alias, AllNamed(KindIn(root), rows))
  }

  lemma {:induction false} FirstOf(names: seq<string>, s: string) returns (k: nat)
    requires s in names
    ensures FirstAt(names, s, k)
  {
    var n := |names| - 1;
    if s in names[..n] {
      k := FirstOf(names[..n], s);
      assert names[..n][..k] == names[..k];
    } else {
      k := n;
    }
  }

  lemma IndexInPrefix(before: seq<string>, s: string, all: seq<string>)
    requires s !in before && before + [s] <= all
    ensures IndexOf(all, s) == |before|
  {
    IndexOfNew(before, s);
    IndexOfStays(before + [s], all[|before| + 1..], s);
    assert all == before + [s] + all[|before| + 1..];
  }

  lemma KeyRank(root: string, names: seq<string>, s: string, k: nat)
    requires Classify(root, s) == Some(X25519) && FirstAt(names, s, k)
    ensures IndexOf(KeysAmong(KindIn(root), names), s) == |KeysBefore(root, names, k)|
  {
    var kind := KindIn(root);
    var before := KeysAmong(kind, names[..k]);
    KeysAmongMeaning(kind, names[..k]);
    KeysPrefix(kind, names, k + 1);
    assert names[..k + 1][..k] == names[..k];
    IndexInPrefix(before, s, KeysAmong(kind, names));
    DistinctCardinality(before);
    assert Elements(before) == KeysBefore(root, names, k);
  }

  lemma KeyAliasSays(root: string, alias: string, names: seq<string>, s: string)
    requires Classify(root, s) == Some(X25519) && s in names
    ensures IsAlias(root, alias, names, s, KeyAlias(alias, IndexOf(KeysAmong(KindIn(root), names), s) + 1))
  {
    var k := FirstOf(names, s);
    KeyRank(root, names, s, k);
    assert NumberedAs(root, alias, names, s, KeyAlias(alias, |KeysBefore(root, names, k)| + 1), k);
  }

  lemma AliasSays(root: string, alias: string, names: seq<string>, s: string)
    requires Owns(root, s) && s in names
    ensures IsAlias(root, alias, names, s, AliasIn(root, alias, KeysAmong(KindIn(root), names))(s))
  {
    RedactedForm(root, alias, KeysAmong(KindIn(root), names), s);
    if Classify(root, s) == Some(X25519) { KeyAliasSays(root, alias, names, s); }
  }

  lemma EvidenceRedacts(source: Source, root: string, ordinal: nat)
    requires Usable(source, root)
    ensures Redacts(EvidenceOf(source, root, ordinal), source, root, RootAlias(ordinal))
  {
    var kind, rows, alias := KindIn(root), RootRows(source, root), RootAlias(ordinal);
    var names, e := AllNamed(kind, rows), EvidenceOf(source, root, ordinal);
    LinesAndBreaks(source.line, rows);
    forall i | 0 <= i < |rows| ensures RedactsRow(e.quads[i], rows[i], source, root, alias, names) {
      assert Listed(kind, rows[i]);
      NamesOf(kind, rows, i);
      AliasSays(root, alias, names, rows[i].subject);
      if OwnsObject(kind, rows[i]) { AliasSays(root, alias, names, rows[i].target.text); }
    }
  }

  // ----- the validator's loops

  method CheckTexts(s: seq<string>) returns (ok: bool)
    ensures ok <==> SortedUnique(s)
  {
    for i := 0 to |s|
      invariant forall j :: 0 <= j < i ==> InPlace(s, j)
    {
      if !InPlace(s, i) { return false; }
    }
    return true;
  }

  method CheckDerived(kind: Classifier, derived: seq<string>) returns (ok: bool)
    ensures ok <==> SortedUnique(derived) && forall i :: 0 <= i < |derived| ==> IsKey(kind, derived[i])
  {
    ok := CheckTexts(derived);
    if !ok { return false; }
    for i := 0 to |derived|
      invariant forall j :: 0 <= j < i ==> IsKey(kind, derived[j])
    {
      if !IsKey(kind, derived[i]) { return false; }
    }
    return true;
  }

  lemma ReferencedAppend(kind: Classifier, quads: seq<Quad>, q: Quad)
    ensures Referenced(kind, quads + [q]) == Referenced(kind, quads)
              + (if IsKey(kind, q.subject) then {q.subject} else {})
              + (if q.owned.Some? && IsKey(kind, q.owned.value) then {q.owned.value} else {})
  {
    assert forall x :: x in quads + [q] <==> x in quads || x == q;
  }

  /** Lines 1252 to 1314 of model.ts: every quad, and the keys they refer to. */
  method CheckQuads(kind: Classifier, root: string, quads: seq<Quad>) returns (ok: bool, referenced: set<string>)
    ensures ok <==> forall i :: 0 <= i < |quads| ==> GoodQuad(kind, root, quads[i])
    ensures ok ==> referenced == Referenced(kind, quads)
  {
    referenced := {};
    for i := 0 to |quads|
      invariant forall j :: 0 <= j < i ==> GoodQuad(kind, root, quads[j])
      invariant referenced == Referenced(kind, quads[..i])
    {
      var q := quads[i];
      if !GoodQuad(kind, root, q) { return false, referenced; }
      assert quads[..i + 1] == quads[..i] + [q];
      ReferencedAppend(kind, quads[..i], q);
      if IsKey(kind, q.subject) { referenced := referenced + {q.subject}; }
      if q.owned.Some? && IsKey(kind, q.owned.value) { referenced := referenced + {q.owned.value}; }
    }
    assert quads[..|quads|] == quads;
    return true, referenced;
  }

  method LinksIn(kind: Classifier, root: string, quads: seq<Quad>) returns (links: seq<string>)
    ensures links == Distinctly(Links(kind, root, quads))
  {
    links := [];
    for i := 0 to |quads|
      invariant links == Distinctly(Links(kind, root, quads[..i]))
    {
      assert quads[..i + 1][..i] == quads[..i];
      if IsRootLink(kind, root, quads[i]) {
        DistinctlyAppend(Links(kind, root, quads[..i]), quads[i].owned.value);
        if quads[i].owned.value !in links { links := links + [quads[i].owned.value]; }
      }
    }
    assert quads[..|quads|] == quads;
  }

  /** Lines 1226 to 1341 of model.ts. */
  method CheckEvidence(kind: Classifier, root: string, e: Evidence) returns (ok: bool)
    ensures ok <==> GoodEvidence(kind, root, e)
    ensures ok <==> Accepted(kind, root, e)
  {
    AcceptedIff(kind, root, e);
    ok := CheckTexts(e.linked);
    if !ok { return false; }
    ok := CheckDerived(kind, e.derived);
    if !ok || |e.quads| > MAX_PROFILE_QUADS || |Owned(root, e)| > MAX_OWNED_SUBJECTS || e.bytes > ONE_MIB { return false; }
    var referenced;
    ok, referenced := CheckQuads(kind, root, e.quads);
    if !ok || Elements(e.derived) != referenced || e.derived != Dense(root + FIXTURE_KEY, |e.derived|) { return false; }
    var links := LinksIn(kind, root, e.quads);
    return e.linked == Sort(TextLe, links);
  }
}
