/** The rich content block of the product page: which sections appear, in
    which order, and how specification keys, tags and documents are labelled. */
module RichContent {
  import opened Wrappers
  import opened Text
  import opened Types

  /** The section headings, in the order the block renders them. */
  datatype Section =
    | ProductDetails(html: string)
    | Description(text: string)
    | KeyFeatures(features: seq<string>)
    | TechnicalSpecifications(rows: seq<(string, string)>)
    | Documentation(documents: seq<(Icon, string, string)>)
    | ProductVideos(videos: seq<(string, string)>)
    | ProductTags(labels: seq<Option<string>>)

  datatype Icon = DescriptionIcon | PdfIcon

  /** The rendering position of each kind of section. */
  function Rank(s: Section): nat {
    match s
    case ProductDetails(_) => 0
    case Description(_) => 1
    case KeyFeatures(_) => 2
    case TechnicalSpecifications(_) => 3
    case Documentation(_) => 4
    case ProductVideos(_) => 5
    case ProductTags(_) => 6
  }

  function CountUpper(s: string): nat {
    if s == [] then 0 else (if IsUpper(s[0]) then 1 else 0) + CountUpper(s[1..])
  }

  /** `replace(/([A-Z])/g, ' $1')`: a space before every upper-case letter. */
  function Spaced(s: string): (r: string)
    ensures |r| == |s| + CountUpper(s)
    ensures |r| > 0 ==> !IsUpper(r[0])
  {
    if s == [] then []
    else if IsUpper(s[0]) then " " + [s[0]] + Spaced(s[1..])
    else [s[0]] + Spaced(s[1..])
  }

  /** Drops every space that stands right before an upper-case letter. */
  function Unspace(t: string): (r: string)
    ensures |r| <= |t|
  {
    if |t| >= 2 && t[0] == ' ' && IsUpper(t[1]) then [t[1]] + Unspace(t[2..])
    else if t == [] then []
    else [t[0]] + Unspace(t[1..])
  }

  /** The inserted spaces can be told apart from the key's own: removing
      them gives the key back, so no two keys share a spaced form. */
  lemma {:induction false} UnspaceSpaced(s: string)
    ensures Unspace(Spaced(s)) == s
  {
    if s != [] {
      UnspaceSpaced(s[1..]);
      var rest := Spaced(s[1..]);
      if IsUpper(s[0]) {
        assert Spaced(s) == [' ', s[0]] + rest;
        assert Spaced(s)[2..] == rest;
      } else {
        assert Spaced(s) == [s[0]] + rest;
        assert Spaced(s)[1..] == rest;
        if s[0] == ' ' && |rest| > 0 {
          assert !IsUpper(rest[0]);
        }
      }
    }
  }

  lemma SpacedInjective(a: string, b: string)
    requires Spaced(a) == Spaced(b)
    ensures a == b
  {
    UnspaceSpaced(a);
    UnspaceSpaced(b);
  }

  /** The specification row label: the key's first letter upper-cased, then
      the rest of the key with a space before each capital, so that
      `batteryLife` reads `Battery Life`. */
  function SpecLabel(key: string): (r: string)
    ensures key == [] <==> r == []
    ensures key != [] ==> r[0] == UpperChar(key[0]) && r[1..] == Spaced(key[1..])
    ensures |r| == |key| + (if key == [] then 0 else CountUpper(key[1..]))
  {
    if key == [] then [] else [UpperChar(key[0])] + Spaced(key[1..])
  }

  /** Two keys with the same label differ at most in the case of their first
      letter. */
  lemma SpecLabelInjective(a: string, b: string)
    requires a != [] && b != []
    requires SpecLabel(a) == SpecLabel(b)
    ensures a[1..] == b[1..] && UpperChar(a[0]) == UpperChar(b[0])
  {
    SpacedInjective(a[1..], b[1..]);
  }

  /** A tag object shows its name, or its value when the name is falsy; a
      scalar shows its text. */
  function TagLabel(tag: Tag): (r: Option<string>)
    ensures tag.ObjectTag? && Truthy(tag.name) ==> r == tag.name
    ensures tag.ObjectTag? && !Truthy(tag.name) ==> r == tag.value
    ensures tag.ScalarTag? ==> r == Some(tag.text)
  {
    match tag
    case ObjectTag(name, value) => if Truthy(name) then name else value
    case ScalarTag(text) => Some(text)
  }

  /** The document icon: the PDF icon for warranties, the description icon
      for manuals, specifications and every other type. */
  function DocIcon(docType: string): (r: Icon)
    ensures r == PdfIcon <==> docType == "warranty"
  {
    match docType
    case "manual" => DescriptionIcon
    case "specification" => DescriptionIcon
    case "warranty" => PdfIcon
    case _ => DescriptionIcon
  }

  function SpecRows(entries: seq<(string, string)>): (r: seq<(string, string)>)
    ensures |r| == |entries|
    ensures forall i :: 0 <= i < |r| ==> r[i] == (SpecLabel(entries[i].0), entries[i].1)
  {
    seq(|entries|, i requires 0 <= i < |entries| => (SpecLabel(entries[i].0), entries[i].1))
  }

  function DocumentRows(documents: seq<ProductDocument>): (r: seq<(Icon, string, string)>)
    ensures |r| == |documents|
    ensures forall i :: 0 <= i < |r| ==> r[i] == (DocIcon(documents[i].docType), documents[i].name, documents[i].url)
  {
    seq(|documents|, i requires 0 <= i < |documents| => (DocIcon(documents[i].docType), documents[i].name, documents[i].url))
  }

  /** Videos are labelled `Video 1`, `Video 2`, ... in list order. */
  function VideoRows(videoUrls: seq<string>): (r: seq<(string, string)>)
    ensures |r| == |videoUrls|
    ensures forall i :: 0 <= i < |r| ==> r[i] == ("Video " + DecimalString(i + 1), videoUrls[i])
  {
    seq(|videoUrls|, i requires 0 <= i < |videoUrls| => ("Video " + DecimalString(i + 1), videoUrls[i]))
  }

  function TagLabels(tags: seq<Tag>): (r: seq<Option<string>>)
    ensures |r| == |tags|
    ensures forall i :: 0 <= i < |r| ==> r[i] == TagLabel(tags[i])
  {
    seq(|tags|, i requires 0 <= i < |tags| => TagLabel(tags[i]))
  }

  function Part(shown: bool, section: Section): (r: seq<Section>)
    ensures r == [] || r == [section]
    ensures shown <==> r != []
  {
    if shown then [section] else []
  }

  predicate NonEmpty<T>(list: Option<seq<T>>) {
    list.Some? && |list.value| > 0
  }

  /** The seven candidate sections of one entry, each shown under its own
      condition. */
  function DetailsPart(c: ProductContent): (r: seq<Section>)
    ensures |r| <= 1 && forall x :: x in r ==> Rank(x) == 0
  {
    Part(Truthy(c.richDescription), ProductDetails(c.richDescription.GetOr("")))
  }

  function DescriptionPart(c: ProductContent): (r: seq<Section>)
    ensures |r| <= 1 && forall x :: x in r ==> Rank(x) == 1
  {
    Part(Truthy(c.description) && !Truthy(c.richDescription), Description(c.description.GetOr("")))
  }

  function FeaturesPart(c: ProductContent): (r: seq<Section>)
    ensures |r| <= 1 && forall x :: x in r ==> Rank(x) == 2
  {
    Part(NonEmpty(c.features), KeyFeatures(if c.features.Some? then c.features.value else []))
  }

  function SpecificationsPart(c: ProductContent): (r: seq<Section>)
    ensures |r| <= 1 && forall x :: x in r ==> Rank(x) == 3
  {
    Part(NonEmpty(c.specifications), TechnicalSpecifications(if c.specifications.Some? then SpecRows(c.specifications.value) else []))
  }

  function DocumentsPart(c: ProductContent): (r: seq<Section>)
    ensures |r| <= 1 && forall x :: x in r ==> Rank(x) == 4
  {
    Part(NonEmpty(c.documents), Documentation(if c.documents.Some? then DocumentRows(c.documents.value) else []))
  }

  function VideosPart(c: ProductContent): (r: seq<Section>)
    ensures |r| <= 1 && forall x :: x in r ==> Rank(x) == 5
  {
    Part(NonEmpty(c.videoUrls), ProductVideos(if c.videoUrls.Some? then VideoRows(c.videoUrls.value) else []))
  }

  function TagsPart(c: ProductContent): (r: seq<Section>)
    ensures |r| <= 1 && forall x :: x in r ==> Rank(x) == 6
  {
    Part(NonEmpty(c.tags), ProductTags(if c.tags.Some? then TagLabels(c.tags.value) else []))
  }

  predicate Ordered(r: seq<Section>) {
    forall i, j :: 0 <= i < j < |r| ==> Rank(r[i]) < Rank(r[j])
  }

  /** A section of rank k placed before sections of higher rank keeps the
      order. */
  lemma PrependOrdered(part: seq<Section>, rest: seq<Section>, k: nat)
    requires |part| <= 1 && forall x :: x in part ==> Rank(x) == k
    requires Ordered(rest) && forall x :: x in rest ==> Rank(x) > k
    ensures Ordered(part + rest) && forall x :: x in part + rest ==> Rank(x) >= k
  {
    var r := part + rest;
    forall i, j | 0 <= i < j < |r| ensures Rank(r[i]) < Rank(r[j]) {
      if i < |part| {
        assert r[i] in part && r[j] == rest[j - |part|] && rest[j - |part|] in rest;
      } else {
        assert r[i] == rest[i - |part|] && r[j] == rest[j - |part|];
      }
    }
  }

  /** The sections of one content entry, in rendering order. */
  function Sections(c: ProductContent): (r: seq<Section>)
    ensures |r| <= 7
  {
    DetailsPart(c) + (DescriptionPart(c) + (FeaturesPart(c) + (SpecificationsPart(c) +
      (DocumentsPart(c) + (VideosPart(c) + TagsPart(c))))))
  }

  /** The sections never appear out of the block's order. */
  lemma SectionsOrdered(c: ProductContent)
    ensures Ordered(Sections(c))
  {
    var p5 := VideosPart(c) + TagsPart(c);
    PrependOrdered(VideosPart(c), TagsPart(c), 5);
    var p4 := DocumentsPart(c) + p5;
    PrependOrdered(DocumentsPart(c), p5, 4);
    var p3 := SpecificationsPart(c) + p4;
    PrependOrdered(SpecificationsPart(c), p4, 3);
    var p2 := FeaturesPart(c) + p3;
    PrependOrdered(FeaturesPart(c), p3, 2);
    var p1 := DescriptionPart(c) + p2;
    PrependOrdered(DescriptionPart(c), p2, 1);
    PrependOrdered(DetailsPart(c), p1, 0);
  }

  /** Some section in the list has rank k. */
  predicate HasRank(r: seq<Section>, k: nat) {
    r != [] && (Rank(r[0]) == k || HasRank(r[1..], k))
  }

  lemma {:induction false} HasRankConcat(a: seq<Section>, b: seq<Section>, k: nat)
    ensures HasRank(a + b, k) <==> HasRank(a, k) || HasRank(b, k)
  {
    if a != [] {
      assert (a + b)[1..] == a[1..] + b;
      HasRankConcat(a[1..], b, k);
    } else {
      assert a + b == b;
    }
  }

  lemma HasRankPart(part: seq<Section>, j: nat, k: nat)
    requires |part| <= 1 && forall x :: x in part ==> Rank(x) == j
    ensures HasRank(part, k) <==> part != [] && j == k
  {
    if part != [] {
      assert part[0] in part;
      assert part[1..] == [];
    }
  }

  /** The condition under which the block renders the section of rank k. */
  predicate Shows(c: ProductContent, k: nat) {
    match k
    case 0 => Truthy(c.richDescription)
    case 1 => Truthy(c.description) && !Truthy(c.richDescription)
    case 2 => NonEmpty(c.features)
    case 3 => NonEmpty(c.specifications)
    case 4 => NonEmpty(c.documents)
    case 5 => NonEmpty(c.videoUrls)
    case 6 => NonEmpty(c.tags)
    case _ => false
  }

  /** Each section appears exactly under the condition the block tests for
      it: the rich description when it is truthy, the plain description only
      without it, every list section only when its list is non-empty. */
  lemma SectionPresence(c: ProductContent, k: nat)
    ensures HasRank(Sections(c), k) <==> Shows(c, k)
  {
    var p5 := VideosPart(c) + TagsPart(c);
    var p4 := DocumentsPart(c) + p5;
    var p3 := SpecificationsPart(c) + p4;
    var p2 := FeaturesPart(c) + p3;
    var p1 := DescriptionPart(c) + p2;
    HasRankConcat(VideosPart(c), TagsPart(c), k);
    HasRankConcat(DocumentsPart(c), p5, k);
    HasRankConcat(SpecificationsPart(c), p4, k);
    HasRankConcat(FeaturesPart(c), p3, k);
    HasRankConcat(DescriptionPart(c), p2, k);
    HasRankConcat(DetailsPart(c), p1, k);
    HasRankPart(DetailsPart(c), 0, k);
    HasRankPart(DescriptionPart(c), 1, k);
    HasRankPart(FeaturesPart(c), 2, k);
    HasRankPart(SpecificationsPart(c), 3, k);
    HasRankPart(DocumentsPart(c), 4, k);
    HasRankPart(VideosPart(c), 5, k);
    HasRankPart(TagsPart(c), 6, k);
  }

  /** The rows shown carry the entry's data: specification rows are the
      labelled entries, the feature list and the rich HTML are shown as given. */
  lemma SectionContents(c: ProductContent, s: Section)
    requires s in Sections(c)
    ensures s.TechnicalSpecifications? ==> c.specifications.Some? && s.rows == SpecRows(c.specifications.value)
    ensures s.KeyFeatures? ==> c.features.Some? && s.features == c.features.value && |s.features| > 0
    ensures s.ProductDetails? ==> c.richDescription.Some? && s.html == c.richDescription.value
    ensures s.ProductVideos? ==> c.videoUrls.Some? && s.videos == VideoRows(c.videoUrls.value)
    ensures s.Description? ==> c.description.Some? && s.text == c.description.value && !Truthy(c.richDescription)
    ensures s.Documentation? ==> c.documents.Some? && s.documents == DocumentRows(c.documents.value) && |s.documents| > 0
    ensures s.ProductTags? ==> c.tags.Some? && s.labels == TagLabels(c.tags.value) && |s.labels| > 0
  {
    assert s in DetailsPart(c) || s in DescriptionPart(c) || s in FeaturesPart(c) || s in SpecificationsPart(c) ||
      s in DocumentsPart(c) || s in VideosPart(c) || s in TagsPart(c);
  }

  /** The whole block: nothing at all for a missing or empty content list,
      otherwise the sections of the first entry. */
  function Render(content: Option<seq<ProductContent>>): (r: Option<seq<Section>>)
    ensures r.None? <==> content.None? || content.value == []
    ensures r.Some? ==> r.value == Sections(content.value[0])
  {
    if content.None? || content.value == [] then None else Some(Sections(content.value[0]))
  }

  /** Entries after the first never change what is shown. */
  lemma OnlyFirstEntry(first: ProductContent, rest: seq<ProductContent>)
    ensures Render(Some([first] + rest)) == Render(Some([first]))
  {
  }

  /** The rich description and the plain description are never shown together. */
  lemma DescriptionsExclusive(c: ProductContent)
    ensures !(HasRank(Sections(c), 0) && HasRank(Sections(c), 1))
  {
    SectionPresence(c, 0);
    SectionPresence(c, 1);
  }
}
