/**
 * An XRD document (General, RFC 6415): subject, expiry, aliases, properties and links, with
 * its codecs to and from an XML element tree and a decoded JRD (JSON) value, and link search
 * by relation. The class keeps the fields the PHP object updates; `Value()` reads them off as
 * a `Descriptor`, and the codecs are functions on that value.
 */
module Descriptors {
  import opened Wrappers
  import opened OrderedMaps
  import opened Text
  import opened Trees
  import opened Links

  const XrdContentType := "application/xrd+xml"
  const JrdContentType := "application/jrd+json"

  /** The exceptions General raises. */
  datatype XrdError =
    | UnexpectedValue(message: string)  // UnexpectedValueException
    | TypeMismatch(message: string)     // the TypeError of a JRD document that is not an array

  const InvalidXml := "invalid XML."
  const InvalidXrd := "invalid XRD."
  const EmptyPropertyType := "invalid XRD. (type is empty in Property)"
  const InvalidJson := "invalid JSON."
  const NotAnArray := "JRD is not an array."

  /** The document; `expires` is kept as the date-time text it is written as. */
  datatype Descriptor = Descriptor(
    subject: string,
    expires: Option<string>,
    aliases: seq<string>,
    properties: PropertyMap,
    links: seq<Link>)

  ghost predicate ValidDescriptor(d: Descriptor) {
    UniqueKeys(d.properties) && forall i :: 0 <= i < |d.links| ==> ValidLink(d.links[i])
  }

  /** What the constructor builds. */
  function NewDescriptor(subject: string): (d: Descriptor)
    ensures ValidDescriptor(d)
    ensures d.subject == subject && d.expires.None? && d.aliases == [] && d.properties == [] && d.links == []
  {
    Descriptor(subject, None, [], [], [])
  }

  // ---------------------------------------------------------------------------------------
  // findLinkElements / findFirstLinkElement

  /** `strcasecmp($link->getRel(), $rel) == 0`, a missing rel comparing as "". */
  predicate RelMatches(l: Link, rel: string) {
    EqualsIgnoreCase(l.rel.GetOr(""), rel)
  }

  /** findLinkElements: the links whose rel matches, in document order. */
  function MatchingLinks(links: seq<Link>, rel: string): seq<Link> {
    if |links| == 0 then []
    else
      var n := |links| - 1;
      MatchingLinks(links[..n], rel) + (if RelMatches(links[n], rel) then [links[n]] else [])
  }

  /** findLinkElements keeps every matching link and nothing else. */
  lemma {:induction false} MatchingLinksSpec(links: seq<Link>, rel: string)
    ensures |MatchingLinks(links, rel)| <= |links|
    ensures forall l :: l in MatchingLinks(links, rel) <==> l in links && RelMatches(l, rel)
    decreases |links|
  {
    if |links| > 0 {
      var n := |links| - 1;
      var prefix := links[..n];
      MatchingLinksSpec(prefix, rel);
      var last := if RelMatches(links[n], rel) then [links[n]] else [];
      assert MatchingLinks(links, rel) == MatchingLinks(prefix, rel) + last;
      assert links == prefix + [links[n]];
      forall l
        ensures l in MatchingLinks(links, rel) <==> l in links && RelMatches(l, rel)
      {
        assert l in MatchingLinks(links, rel) <==> l in MatchingLinks(prefix, rel) || l in last;
        assert l in links <==> l in prefix || l == links[n];
      }
    }
  }

  /** findLinkElements keeps document order: the links found in two lists are those of the first, then those of the second. */
  lemma {:induction false} MatchingLinksAppend(a: seq<Link>, b: seq<Link>, rel: string)
    ensures MatchingLinks(a + b, rel) == MatchingLinks(a, rel) + MatchingLinks(b, rel)
    decreases |b|
  {
    if |b| == 0 {
      assert a + b == a;
    } else {
      var n := |b| - 1;
      MatchingLinksAppend(a, b[..n], rel);
      assert (a + b)[..|a + b| - 1] == a + b[..n];
      assert (a + b)[|a + b| - 1] == b[n];
    }
  }

  /** The position of the first link whose rel matches. */
  function FirstMatchIndex(links: seq<Link>, rel: string): (r: Option<nat>)
    ensures r.None? <==> forall i :: 0 <= i < |links| ==> !RelMatches(links[i], rel)
    ensures r.Some? ==> r.value < |links| && RelMatches(links[r.value], rel)
    ensures r.Some? ==> forall j :: 0 <= j < r.value ==> !RelMatches(links[j], rel)
  {
    if |links| == 0 then None
    else if RelMatches(links[0], rel) then Some(0)
    else
      assert forall i :: 1 <= i < |links| ==> links[i] == links[1..][i - 1];
      match FirstMatchIndex(links[1..], rel)
      case None => None
      case Some(i) => Some(i + 1)
  }

  /** findFirstLinkElement: the first link whose rel matches. */
  function FirstMatchingLink(links: seq<Link>, rel: string): (r: Option<Link>)
    ensures r.None? <==> forall i :: 0 <= i < |links| ==> !RelMatches(links[i], rel)
    ensures r.Some? ==> RelMatches(r.value, rel) && r.value in links
    ensures r.Some? ==> exists i :: 0 <= i < |links| && links[i] == r.value && RelMatches(links[i], rel) &&
                                    forall j :: 0 <= j < i ==> !RelMatches(links[j], rel)
  {
    match FirstMatchIndex(links, rel)
    case None => None
    case Some(i) => Some(links[i])
  }

  /** A matching link with no matching link before it is the one FirstMatchIndex finds. */
  lemma FirstMatchIndexAt(links: seq<Link>, rel: string, k: nat)
    requires k < |links| && RelMatches(links[k], rel)
    requires forall j :: 0 <= j < k ==> !RelMatches(links[j], rel)
    ensures FirstMatchIndex(links, rel) == Some(k)
  {
    var r := FirstMatchIndex(links, rel);
    assert r.Some?;
  }

  /** Appending a link that does not match leaves the first match where it was; one that matches is found when nothing before it is. */
  lemma FirstMatchSnoc(links: seq<Link>, rel: string)
    requires |links| > 0
    ensures var n := |links| - 1; var p := FirstMatchIndex(links[..n], rel);
      FirstMatchIndex(links, rel) == if p.Some? then p else if RelMatches(links[n], rel) then Some(n) else None
  {
    var n := |links| - 1;
    var prefix := links[..n];
    var p := FirstMatchIndex(prefix, rel);
    if p.Some? {
      assert FirstMatchIndex(links, rel) == p by {
        assert forall j :: 0 <= j <= p.value ==> prefix[j] == links[j];
        FirstMatchIndexAt(links, rel, p.value);
      }
    } else if RelMatches(links[n], rel) {
      assert FirstMatchIndex(links, rel) == Some(n) by {
        assert forall j :: 0 <= j < n ==> prefix[j] == links[j];
        FirstMatchIndexAt(links, rel, n);
      }
    } else {
      assert FirstMatchIndex(links, rel) == None by {
        assert forall j :: 0 <= j < n ==> prefix[j] == links[j];
      }
    }
  }

  /** The first link found is the head of the list of all links found. */
  lemma {:induction false} FirstIsHeadOfMatching(links: seq<Link>, rel: string)
    ensures FirstMatchingLink(links, rel) == if |MatchingLinks(links, rel)| == 0 then None else Some(MatchingLinks(links, rel)[0])
    decreases |links|
  {
    if |links| > 0 {
      var n := |links| - 1;
      var prefix := links[..n];
      FirstIsHeadOfMatching(prefix, rel);
      FirstMatchSnoc(links, rel);
      var m := MatchingLinks(prefix, rel);
      var last := if RelMatches(links[n], rel) then [links[n]] else [];
      assert MatchingLinks(links, rel) == m + last;
      if |m| > 0 {
        assert (m + last)[0] == m[0];
        assert prefix[FirstMatchIndex(prefix, rel).value] == links[FirstMatchIndex(prefix, rel).value];
      } else {
        assert m + last == last;
      }
    }
  }

  // ---------------------------------------------------------------------------------------
  // toXml

  function SubjectNodes(subject: string): seq<Element> {
    if subject != "" then [Element("Subject", [], subject, [])] else []
  }

  function ExpiresNodes(expires: Option<string>): seq<Element> {
    if expires.Some? then [Element("Expires", [], expires.value, [])] else []
  }

  function AliasNodes(aliases: seq<string>): (r: seq<Element>)
    ensures |r| == |aliases|
    ensures forall i :: 0 <= i < |r| ==> r[i] == Element("Alias", [], aliases[i], [])
  {
    seq(|aliases|, i requires 0 <= i < |aliases| => Element("Alias", [], aliases[i], []))
  }

  function LinkNodes(links: seq<Link>): (r: seq<Element>)
    ensures |r| == |links|
    ensures forall i :: 0 <= i < |r| ==> r[i] == LinkToXml(links[i])
  {
    seq(|links|, i requires 0 <= i < |links| => LinkToXml(links[i]))
  }

  /** Some property, of the document or of one of its links, is nil. */
  predicate NeedsXsi(d: Descriptor) {
    HasNil(d.properties) || exists i {:trigger HasNil(d.links[i].properties)} :: 0 <= i < |d.links| && HasNil(d.links[i].properties)
  }

  /** The `xmlns:xsi` declaration toXml puts on the root. */
  const XsiDeclaration := Attribute(XmlnsNamespace, "xsi", XsiNamespace)

  /** The element names of the children of an XRD, in the order toXml writes them. */
  const XrdNames := ["Subject", "Expires", "Alias", "Property", "Link"]

  /** The children toXml adds, one segment per name: Subject when not empty, Expires when set, then Alias, Property and Link elements. */
  function XrdSegments(d: Descriptor): (parts: seq<seq<Element>>)
    ensures NamedSegments(parts, XrdNames)
  {
    [SubjectNodes(d.subject), ExpiresNodes(d.expires), AliasNodes(d.aliases), PropertyNodes(d.properties), LinkNodes(d.links)]
  }

  /** The plain children toXml writes first: Subject, Expires and Alias, none with attributes or children. */
  function HeadNodes(d: Descriptor): (r: seq<Element>)
    ensures |r| == |SubjectNodes(d.subject)| + |ExpiresNodes(d.expires)| + |d.aliases|
    ensures forall i :: 0 <= i < |r| ==> r[i].attrs == [] && r[i].children == []
  {
    SubjectNodes(d.subject) + ExpiresNodes(d.expires) + AliasNodes(d.aliases)
  }

  function XrdChildren(d: Descriptor): seq<Element> {
    HeadNodes(d) + PropertyNodes(d.properties) + LinkNodes(d.links)
  }

  /** toXml: an XRD element declaring the xsi namespace when it uses it. */
  function EncodeXml(d: Descriptor): Element {
    Element("XRD", if NeedsXsi(d) then [XsiDeclaration] else [], "", XrdChildren(d))
  }

  // ---------------------------------------------------------------------------------------
  // setFromXml

  /** `strval($attributes['type'])`: a Property's key, "" when the attribute is missing. */
  function PropertyKey(n: Element): string {
    Attr(n.attrs, "", "type").GetOr("")
  }

  /** A Property's value: nil when `xsi:nil` is "true", its text otherwise. */
  function PropertyNodeValue(n: Element): Option<string> {
    if Attr(n.attrs, XsiNamespace, "nil") == Some("true") then None else Some(n.text)
  }

  function PropertyKeys(nodes: seq<Element>): (r: seq<string>)
    ensures |r| == |nodes|
    ensures forall i :: 0 <= i < |r| ==> r[i] == PropertyKey(nodes[i])
  {
    seq(|nodes|, i requires 0 <= i < |nodes| => PropertyKey(nodes[i]))
  }

  function XmlPropertyEntries(nodes: seq<Element>): (r: PropertyMap)
    ensures |r| == |nodes|
    ensures forall i :: 0 <= i < |r| ==> r[i] == (PropertyKey(nodes[i]), PropertyNodeValue(nodes[i]))
  {
    seq(|nodes|, i requires 0 <= i < |nodes| => (PropertyKey(nodes[i]), PropertyNodeValue(nodes[i])))
  }

  /**
   * parsePropertyNode over the Property elements in turn, each stored under its type: a
   * Property without a type (or with an empty one) is rejected, and the properties already
   * parsed are then dropped with the document.
   */
  function PropertiesFromXml(nodes: seq<Element>): (r: Result<PropertyMap, XrdError>)
    ensures r.Failure? <==> exists i :: 0 <= i < |nodes| && PropertyKey(nodes[i]) == ""
    ensures r.Failure? ==> r.error == UnexpectedValue(EmptyPropertyType)
    ensures r.Success? ==> UniqueKeys(r.value)
  {
    if "" in PropertyKeys(nodes) then Failure(UnexpectedValue(EmptyPropertyType))
    else
      PutAllUnique([], XmlPropertyEntries(nodes));
      Success(PutAll([], XmlPropertyEntries(nodes)))
  }

  /** A decoded property holds the value of the last Property element of its type; no other key is set. */
  lemma PropertiesFromXmlGet(nodes: seq<Element>, key: string)
    requires PropertiesFromXml(nodes).Success?
    ensures Get(PropertiesFromXml(nodes).value, key) == LastValue(XmlPropertyEntries(nodes), key)
  {
    PutAllGet([], XmlPropertyEntries(nodes), key);
  }

  /** A Title's language: `xml:lang` when present, else a plain `lang` attribute. */
  function TitleLang(n: Element): Option<string> {
    var xmlLang := Attr(n.attrs, XmlNamespace, "lang");
    if xmlLang.Some? then xmlLang else Attr(n.attrs, "", "lang")
  }

  function XmlTitleEntries(nodes: seq<Element>): (r: OrderedMap<string>)
    ensures |r| == |nodes|
    ensures forall i :: 0 <= i < |r| ==> r[i] == (TitleKey(TitleLang(nodes[i])), nodes[i].text)
  {
    seq(|nodes|, i requires 0 <= i < |nodes| => (TitleKey(TitleLang(nodes[i])), nodes[i].text))
  }

  /** The titles setTitle leaves when applied to each Title element in turn. */
  function TitlesFromXml(nodes: seq<Element>): (t: OrderedMap<string>)
    ensures ValidTitles(t)
    ensures forall lang :: Get(t, lang) == LastValue(XmlTitleEntries(nodes), lang)
  {
    var entries := XmlTitleEntries(nodes);
    TitlesOfEntriesValid(entries);
    assert forall lang :: Get(PutAll([], entries), lang) == LastValue(entries, lang) by {
      forall lang ensures Get(PutAll([], entries), lang) == LastValue(entries, lang) {
        PutAllGet([], entries, lang);
      }
    }
    PutAll([], entries)
  }

  /** A Title with both `lang` and `xml:lang` is filed under its `xml:lang`, whatever their order. */
  lemma XmlLangWins(title: string, lang: string, xmlLang: string)
    requires !IsEmptyPhp(xmlLang)
    ensures TitlesFromXml([Element("Title", [Attribute("", "lang", lang), Attribute(XmlNamespace, "lang", xmlLang)], title, [])]) == [(xmlLang, title)]
    ensures TitlesFromXml([Element("Title", [Attribute(XmlNamespace, "lang", xmlLang), Attribute("", "lang", lang)], title, [])]) == [(xmlLang, title)]
  {
    var attrs := [Attribute("", "lang", lang), Attribute(XmlNamespace, "lang", xmlLang)];
    assert Attr(attrs, XmlNamespace, "lang") == Some(xmlLang) by {
      assert attrs[1..] == [Attribute(XmlNamespace, "lang", xmlLang)];
    }
    var e := [(xmlLang, title)];
    assert PutAll([], e) == Put(PutAll([], e[..0]), xmlLang, title);
  }

  /** The link a Link element's attributes construct: a template attribute wins over href. */
  function LinkBase(n: Element): Link {
    var rel := Attr(n.attrs, "", "rel");
    var mediaType := Attr(n.attrs, "", "type");
    var template := Attr(n.attrs, "", "template");
    if template.Some? then NewLink(rel, template, mediaType, true)
    else NewLink(rel, Attr(n.attrs, "", "href"), mediaType, false)
  }

  /** A Link element: its attributes, its titles, and its properties merged into the empty set. */
  function LinkFromXml(n: Element): (r: Result<Link, XrdError>)
    ensures r.Failure? <==> PropertiesFromXml(ChildrenNamed(n.children, "Property")).Failure?
    ensures r.Failure? ==> r.error == UnexpectedValue(EmptyPropertyType)
    ensures r.Success? ==> ValidLink(r.value)
    ensures r.Success? ==> r.value.rel == Attr(n.attrs, "", "rel") && r.value.mediaType == Attr(n.attrs, "", "type")
    ensures r.Success? && Attr(n.attrs, "", "template").Some? ==>
      r.value.template == Attr(n.attrs, "", "template") && r.value.href.None?
    ensures r.Success? && Attr(n.attrs, "", "template").None? ==>
      r.value.href == Attr(n.attrs, "", "href") && r.value.template.None?
    ensures r.Success? ==> r.value.titles == TitlesFromXml(ChildrenNamed(n.children, "Title"))
    ensures r.Success? ==> r.value.properties == PropertiesFromXml(ChildrenNamed(n.children, "Property")).value
  {
    match PropertiesFromXml(ChildrenNamed(n.children, "Property"))
    case Failure(e) => Failure(e)
    case Success(props) =>
      var props' := PutAll([], props);
      PutAllOfUnique(props);
      Success(LinkBase(n).(titles := TitlesFromXml(ChildrenNamed(n.children, "Title")), properties := props'))
  }

  /** The Link elements in turn; the first that fails stops the decoding. */
  function LinksFromXml(nodes: seq<Element>): (r: Result<seq<Link>, XrdError>)
    ensures r.Success? ==> |r.value| == |nodes| && forall i :: 0 <= i < |nodes| ==> LinkFromXml(nodes[i]) == Success(r.value[i])
    ensures r.Success? ==> forall i :: 0 <= i < |nodes| ==> ValidLink(r.value[i])
    ensures r.Failure? <==> exists i :: 0 <= i < |nodes| && LinkFromXml(nodes[i]).Failure?
    ensures r.Failure? ==> r.error == UnexpectedValue(EmptyPropertyType)
  {
    DecodeAll(LinkFromXml, nodes)
  }

  /** `strval($xml->Subject)`: the first Subject's text, "" when there is none. */
  function SubjectOf(cs: seq<Element>): (r: string)
    ensures (forall i :: 0 <= i < |cs| ==> cs[i].name != "Subject") ==> r == ""
    ensures forall i :: 0 <= i < |cs| && cs[i].name == "Subject" && (forall j :: 0 <= j < i ==> cs[j].name != "Subject") ==>
                        r == cs[i].text
  {
    var s := FirstChild(cs, "Subject");
    if s.Some? then s.value.text else ""
  }

  function ExpiresOf(cs: seq<Element>): (r: Option<string>)
    ensures r.None? <==> forall i :: 0 <= i < |cs| ==> cs[i].name != "Expires"
    ensures forall i :: 0 <= i < |cs| && cs[i].name == "Expires" && (forall j :: 0 <= j < i ==> cs[j].name != "Expires") ==>
                        r == Some(cs[i].text)
  {
    var e := FirstChild(cs, "Expires");
    if e.Some? then Some(e.value.text) else None
  }

  /**
   * setFromXml on an XRD element: a root of another name is rejected, and otherwise the only
   * failure is a Property without a type, at the top level or in a link.
   */
  function DecodeXml(root: Element): (r: Result<Descriptor, XrdError>)
    ensures root.name != "XRD" ==> r == Failure(UnexpectedValue(InvalidXrd))
    ensures root.name == "XRD" ==>
      (r.Failure? <==> PropertiesFromXml(ChildrenNamed(root.children, "Property")).Failure? ||
                       LinksFromXml(ChildrenNamed(root.children, "Link")).Failure?)
    ensures root.name == "XRD" && r.Failure? ==> r.error == UnexpectedValue(EmptyPropertyType)
    ensures r.Success? ==> ValidDescriptor(r.value)
    ensures r.Success? ==> r.value.subject == SubjectOf(root.children) && r.value.expires == ExpiresOf(root.children)
    ensures r.Success? ==> r.value.aliases == Texts(ChildrenNamed(root.children, "Alias"))
    ensures r.Success? ==> r.value.properties == PropertiesFromXml(ChildrenNamed(root.children, "Property")).value
    ensures r.Success? ==> r.value.links == LinksFromXml(ChildrenNamed(root.children, "Link")).value
  {
    if root.name != "XRD" then Failure(UnexpectedValue(InvalidXrd))
    else
      var cs := root.children;
      match PropertiesFromXml(ChildrenNamed(cs, "Property"))
      case Failure(e) => Failure(e)
      case Success(props) =>
        match LinksFromXml(ChildrenNamed(cs, "Link"))
        case Failure(e) => Failure(e)
        case Success(links) =>
          Success(Descriptor(SubjectOf(cs), ExpiresOf(cs), Texts(ChildrenNamed(cs, "Alias")), props, links))
  }

  /** fromXml: `None` stands for text that does not parse as XML. */
  function ParseXrd(doc: Option<Element>): Result<Descriptor, XrdError> {
    if doc.None? then Failure(UnexpectedValue(InvalidXml)) else DecodeXml(doc.value)
  }

  // ---------------------------------------------------------------------------------------
  // toJson

  function StringsJson(items: seq<string>): Json {
    JArray(seq(|items|, i requires 0 <= i < |items| => JString(items[i])))
  }

  function LinksJson(links: seq<Link>): Json {
    JArray(seq(|links|, i requires 0 <= i < |links| => LinkToArray(links[i])))
  }

  /** The members toJson may write, in its order: subject when not "", expires when set, aliases, properties and links when not empty. */
  function DescriptorFields(d: Descriptor): seq<(string, Option<Json>)> {
    [("subject", if d.subject != "" then Some(JString(d.subject)) else None),
     ("expires", StringJson(d.expires)),
     ("aliases", NonEmpty(d.aliases, StringsJson(d.aliases))),
     ("properties", NonEmpty(d.properties, PropertiesJson(d.properties))),
     ("links", NonEmpty(d.links, LinksJson(d.links)))]
  }

  lemma DescriptorFieldsDistinct(d: Descriptor)
    ensures DistinctNames(DescriptorFields(d))
  {
    var fs := DescriptorFields(d);
    forall i, j | 0 <= i < j < |fs| ensures fs[i].0 != fs[j].0 {
      assert fs[i].0[0] != fs[j].0[0];
    }
  }

  /** toJson: the object of the fields that are set; with none set it is the empty object `{}`, not a list. */
  function EncodeJson(d: Descriptor): (j: Json)
    ensures j.JObject?
    ensures |j.members| == 0 <==> d.subject == "" && d.expires.None? && d.aliases == [] && d.properties == [] && d.links == []
  {
    var fs := DescriptorFields(d);
    DescriptorFieldsDistinct(d);
    FieldsShape(fs);
    assert (forall i :: 0 <= i < |fs| ==> fs[i].1.None?) <==>
      fs[0].1.None? && fs[1].1.None? && fs[2].1.None? && fs[3].1.None? && fs[4].1.None?;
    JObject(Fields(fs))
  }

  // ---------------------------------------------------------------------------------------
  // setFromJson / setFromArray

  /** What foreach visits in a decoded JSON value: a list's items or an object's values. */
  function Items(j: Json): seq<Json> {
    match j
    case JArray(items) => items
    case JObject(members) => seq(|members|, i requires 0 <= i < |members| => members[i].1)
    case _ => []
  }

  function JsonTexts(items: seq<Json>): seq<string> {
    seq(|items|, i requires 0 <= i < |items| => TextOf(items[i]))
  }

  /** A link of setFromArray: constructed from rel, type and template (which wins) or href, then titles and properties added. */
  function JrdLink(j: Json): Link {
    var ms := Members(j);
    var rel := StringMember(ms, "rel");
    var mediaType := StringMember(ms, "type");
    var template := StringMember(ms, "template");
    var base := if template.Some? then NewLink(rel, template, mediaType, true)
      else NewLink(rel, StringMember(ms, "href"), mediaType, false);
    var titles := IssetMember(ms, "titles");
    var props := IssetMember(ms, "properties");
    base.(titles := if titles.Some? then TitlesFromJson(titles.value) else [],
          properties := if props.Some? then PropertiesFromJson(props.value) else [])
  }

  lemma JrdLinkValid(j: Json)
    ensures ValidLink(JrdLink(j))
  {
  }

  /** The links setFromArray appends, one per item in order. */
  function JrdLinks(items: seq<Json>): (r: seq<Link>)
    ensures |r| == |items|
    ensures forall i :: 0 <= i < |r| ==> r[i] == JrdLink(items[i])
  {
    MapSeq(JrdLink, items)
  }

  /** setFromArray on the members of a decoded JRD object. */
  function DecodeArray(members: seq<(string, Json)>): (d: Descriptor)
    ensures Get(members, "subject").None? ==> d.subject == ""
    ensures Get(members, "subject").Some? && Get(members, "subject").value.JString? ==> d.subject == Get(members, "subject").value.str
    ensures d.expires == StringMember(members, "expires")
    ensures IssetMember(members, "aliases").None? ==> d.aliases == []
    ensures IssetMember(members, "aliases").Some? ==>
      |d.aliases| == |Items(IssetMember(members, "aliases").value)| &&
      forall i :: 0 <= i < |d.aliases| ==> d.aliases[i] == TextOf(Items(IssetMember(members, "aliases").value)[i])
    ensures IssetMember(members, "properties").None? ==> d.properties == []
    ensures IssetMember(members, "properties").Some? ==> d.properties == PropertiesFromJson(IssetMember(members, "properties").value)
    ensures IssetMember(members, "links").None? ==> d.links == []
    ensures IssetMember(members, "links").Some? ==>
      |d.links| == |Items(IssetMember(members, "links").value)| &&
      forall i :: 0 <= i < |d.links| ==> d.links[i] == JrdLink(Items(IssetMember(members, "links").value)[i])
  {
    var aliases := IssetMember(members, "aliases");
    var props := IssetMember(members, "properties");
    var links := IssetMember(members, "links");
    Descriptor(
      TextOf(Get(members, "subject").GetOr(JNull)),
      StringMember(members, "expires"),
      if aliases.Some? then JsonTexts(Items(aliases.value)) else [],
      if props.Some? then PropertiesFromJson(props.value) else [],
      if links.Some? then JrdLinks(Items(links.value)) else [])
  }

  /** setFromArray leaves a well-formed document: distinct property types, links with valid titles and properties. */
  lemma DecodeArrayValid(members: seq<(string, Json)>)
    ensures ValidDescriptor(DecodeArray(members))
  {
    var ls := DecodeArray(members).links;
    forall i | 0 <= i < |ls| ensures ValidLink(ls[i]) {
      JrdLinkValid(Items(IssetMember(members, "links").value)[i]);
    }
  }

  /** fromJson on the value `json_decode` returned (JNull also stands for text that is not JSON). */
  function DecodeJson(data: Json): (r: Result<Descriptor, XrdError>)
    ensures data.JNull? ==> r == Failure(UnexpectedValue(InvalidJson))
    ensures data.JString? ==> r == Failure(TypeMismatch(NotAnArray))
    ensures data.JArray? ==> r == Success(NewDescriptor(""))
    ensures data.JObject? ==> r == Success(DecodeArray(data.members))
  {
    match data
    case JNull => Failure(UnexpectedValue(InvalidJson))
    case JString(_) => Failure(TypeMismatch(NotAnArray))
    case JArray(_) => Success(DecodeArray([]))
    case JObject(members) => Success(DecodeArray(members))
  }

  /** General's setFromArray builds a link as LinkElement's fromArray does, except that a template drops the href. */
  lemma JrdLinkFromArray(j: Json)
    ensures var l := LinkFromArray(Members(j));
      JrdLink(j) == if l.template.Some? then l.(href := None) else l
  {
  }

  /** A link without both href and template survives toArray and General's reading of it. */
  lemma JrdLinkRoundTrip(l: Link)
    requires ValidLink(l) && !(l.href.Some? && l.template.Some?)
    ensures JrdLink(LinkToArray(l)) == l
  {
    JrdLinkFromArray(LinkToArray(l));
    LinkArrayRoundTrip(l);
  }

  /** A link with both an href and a template loses its href on the way through JRD. */
  lemma JrdLinkDropsHref()
    ensures var l := NewLink(Some("lrdd"), Some("https://example.com/x"), None, false).(template := Some("https://example.com/{uri}"));
      ValidLink(l) && JrdLink(LinkToArray(l)) == l.(href := None) != l
  {
    var l := NewLink(Some("lrdd"), Some("https://example.com/x"), None, false).(template := Some("https://example.com/{uri}"));
    JrdLinkFromArray(LinkToArray(l));
    LinkArrayRoundTrip(l);
  }

  /** Looking up each member of toJson's result finds exactly the field it was built from. */
  lemma EncodeJsonMembers(d: Descriptor, m: nat)
    requires m < 5
    ensures Get(EncodeJson(d).members, DescriptorFields(d)[m].0) == DescriptorFields(d)[m].1
  {
    DescriptorFieldsDistinct(d);
    FieldsGet(DescriptorFields(d), m);
  }

  /** The links of a JRD list come back one by one. */
  lemma JrdLinksRoundTrip(links: seq<Link>)
    requires forall i :: 0 <= i < |links| ==> ValidLink(links[i]) && !(links[i].href.Some? && links[i].template.Some?)
    ensures JrdLinks(Items(LinksJson(links))) == links
  {
    forall i | 0 <= i < |links| ensures JrdLinks(Items(LinksJson(links)))[i] == links[i] {
      JrdLinkRoundTrip(links[i]);
    }
  }

  /** The subject and expiry toJson writes are read back by setFromArray. */
  lemma JsonRoundTripHead(d: Descriptor)
    ensures var r := DecodeArray(EncodeJson(d).members);
      r.subject == d.subject && r.expires == d.expires
  {
    var r := DecodeArray(EncodeJson(d).members);
    assert r.subject == d.subject by { EncodeJsonMembers(d, 0); }
    assert r.expires == d.expires by { EncodeJsonMembers(d, 1); }
  }

  /** The aliases toJson writes are read back by setFromArray. */
  lemma JsonRoundTripAliases(d: Descriptor)
    ensures DecodeArray(EncodeJson(d).members).aliases == d.aliases
  {
    EncodeJsonMembers(d, 2);
    if |d.aliases| > 0 {
      assert JsonTexts(Items(StringsJson(d.aliases))) == d.aliases;
    }
  }

  /** The properties and links toJson writes are read back by setFromArray. */
  lemma JsonRoundTripTail(d: Descriptor)
    requires ValidDescriptor(d)
    requires forall i :: 0 <= i < |d.links| ==> !(d.links[i].href.Some? && d.links[i].template.Some?)
    ensures var r := DecodeArray(EncodeJson(d).members);
      r.properties == d.properties && r.links == d.links
  {
    var m := EncodeJson(d).members;
    var r := DecodeArray(m);
    assert r.properties == d.properties by {
      EncodeJsonMembers(d, 3);
      if |d.properties| > 0 {
        PropertiesRoundTrip(d.properties);
      }
    }
    assert r.links == d.links by {
      EncodeJsonMembers(d, 4);
      if |d.links| > 0 {
        JrdLinksRoundTrip(d.links);
      }
    }
  }

  /**
   * fromJson(toJson()) rebuilds the document, provided no link carries both an href and a
   * template (General keeps only the template of such a link).
   */
  lemma JsonRoundTrip(d: Descriptor)
    requires ValidDescriptor(d)
    requires forall i :: 0 <= i < |d.links| ==> !(d.links[i].href.Some? && d.links[i].template.Some?)
    ensures DecodeJson(EncodeJson(d)) == Success(d)
  {
    JsonRoundTripHead(d);
    JsonRoundTripAliases(d);
    JsonRoundTripTail(d);
  }

  // ---------------------------------------------------------------------------------------
  // XML: the xsi declaration and the round trip

  /** Some element of `cs`, or some child of one, carries `xsi:nil="true"`. */
  ghost predicate NilAmong(cs: seq<Element>) {
    (exists i {:trigger MarkedNil(cs[i])} :: 0 <= i < |cs| && MarkedNil(cs[i])) ||
    (exists i, j {:trigger MarkedNil(cs[i].children[j])} :: 0 <= i < |cs| && 0 <= j < |cs[i].children| && MarkedNil(cs[i].children[j]))
  }

  /** Some child, or some child of a child, carries `xsi:nil="true"`. */
  ghost predicate NilInside(e: Element) {
    NilAmong(e.children)
  }

  /** The positions of the Property and the Link children toXml writes. */
  function PropertiesStart(d: Descriptor): nat {
    |SubjectNodes(d.subject)| + |ExpiresNodes(d.expires)| + |d.aliases|
  }

  lemma XrdChildrenLength(d: Descriptor)
    ensures |XrdChildren(d)| == PropertiesStart(d) + |d.properties| + |d.links|
  {
  }

  /** A child before the properties is a plain Subject, Expires or Alias element. */
  lemma HeadChild(d: Descriptor, i: nat)
    requires i < PropertiesStart(d)
    ensures i < |XrdChildren(d)| && XrdChildren(d)[i].attrs == [] && XrdChildren(d)[i].children == []
  {
    var h := HeadNodes(d);
    assert XrdChildren(d)[i] == h[i];
  }

  /** The children after the plain ones are one Property per property, in order. */
  lemma PropertyChild(d: Descriptor, i: nat)
    requires PropertiesStart(d) <= i < PropertiesStart(d) + |d.properties|
    ensures var k := i - PropertiesStart(d);
      i < |XrdChildren(d)| && XrdChildren(d)[i] == PropertyNode(d.properties[k].0, d.properties[k].1)
  {
    var p := PropertyNodes(d.properties);
    assert XrdChildren(d)[i] == p[i - PropertiesStart(d)];
  }

  /** The last children are one Link per link, in order. */
  lemma LinkChild(d: Descriptor, i: nat)
    requires PropertiesStart(d) + |d.properties| <= i < |XrdChildren(d)|
    ensures XrdChildren(d)[i] == LinkToXml(d.links[i - PropertiesStart(d) - |d.properties|])
  {
    var l := LinkNodes(d.links);
    assert XrdChildren(d)[i] == l[i - PropertiesStart(d) - |d.properties|];
  }

  lemma PropertyNodeNil(key: string, value: Option<string>)
    ensures MarkedNil(PropertyNode(key, value)) <==> value.None?
  {
    var attrs := PropertyNode(key, value).attrs;
    if value.None? {
      assert attrs == [Attribute("", "type", key), Attribute(XsiNamespace, "nil", "true")];
      assert attrs[1..] == [Attribute(XsiNamespace, "nil", "true")];
      assert Attr(attrs[1..], XsiNamespace, "nil") == Some("true");
    } else {
      assert attrs == [Attribute("", "type", key)];
    }
  }

  lemma LinkNodeNotNil(l: Link)
    ensures !MarkedNil(LinkToXml(l))
  {
    var attrs := LinkToXml(l).attrs;
    assert forall k :: 0 <= k < |attrs| ==> attrs[k].ns == "";
  }

  /** A child of the root carries `xsi:nil` exactly when it is the Property of a nil property. */
  lemma ChildNil(d: Descriptor, i: nat)
    requires i < |XrdChildren(d)|
    ensures var a := PropertiesStart(d);
      MarkedNil(XrdChildren(d)[i]) <==> a <= i < a + |d.properties| && d.properties[i - a].1.None?
  {
    var a := PropertiesStart(d);
    var b := a + |d.properties|;
    if i < a {
      HeadChild(d, i);
    } else if i < b {
      PropertyChild(d, i);
      PropertyNodeNil(d.properties[i - a].0, d.properties[i - a].1);
    } else {
      LinkChild(d, i);
      LinkNodeNotNil(d.links[i - b]);
    }
  }

  /** A child of the root has a child carrying `xsi:nil` exactly when it is the Link of a link with a nil property. */
  lemma GrandchildNil(d: Descriptor, i: nat)
    requires i < |XrdChildren(d)|
    ensures var c := XrdChildren(d)[i]; var b := PropertiesStart(d) + |d.properties|;
      (exists j :: 0 <= j < |c.children| && MarkedNil(c.children[j])) <==> b <= i && HasNil(d.links[i - b].properties)
  {
    var a := PropertiesStart(d);
    var b := a + |d.properties|;
    if i < a {
      HeadChild(d, i);
    } else if i < b {
      PropertyChild(d, i);
      assert XrdChildren(d)[i].children == [];
    } else {
      LinkChild(d, i);
      LinkToXmlNil(d.links[i - b]);
    }
  }

  lemma PropertyNilWritten(d: Descriptor, j: nat)
    requires j < |d.properties| && d.properties[j].1.None?
    ensures NilAmong(XrdChildren(d))
  {
    var i := PropertiesStart(d) + j;
    XrdChildrenLength(d);
    ChildNil(d, i);
    assert MarkedNil(XrdChildren(d)[i]);
  }

  lemma LinkNilWritten(d: Descriptor, k: nat)
    requires k < |d.links| && HasNil(d.links[k].properties)
    ensures NilAmong(XrdChildren(d))
  {
    var cs := XrdChildren(d);
    var i := PropertiesStart(d) + |d.properties| + k;
    XrdChildrenLength(d);
    GrandchildNil(d, i);
    var j :| 0 <= j < |cs[i].children| && MarkedNil(cs[i].children[j]);
  }

  lemma NilWritten(d: Descriptor)
    requires NeedsXsi(d)
    ensures NilAmong(XrdChildren(d))
  {
    if HasNil(d.properties) {
      var j :| 0 <= j < |d.properties| && d.properties[j].1.None?;
      PropertyNilWritten(d, j);
    } else {
      var k :| 0 <= k < |d.links| && HasNil(d.links[k].properties);
      LinkNilWritten(d, k);
    }
  }

  lemma ChildNilRead(d: Descriptor, i: nat)
    requires i < |XrdChildren(d)| && MarkedNil(XrdChildren(d)[i])
    ensures NeedsXsi(d)
  {
    ChildNil(d, i);
    assert d.properties[i - PropertiesStart(d)].1.None?;
  }

  lemma GrandchildNilRead(d: Descriptor, i: nat, j: nat)
    requires i < |XrdChildren(d)| && j < |XrdChildren(d)[i].children| && MarkedNil(XrdChildren(d)[i].children[j])
    ensures NeedsXsi(d)
  {
    GrandchildNil(d, i);
    assert HasNil(d.links[i - PropertiesStart(d) - |d.properties|].properties);
  }

  lemma NilRead(d: Descriptor)
    requires NilAmong(XrdChildren(d))
    ensures NeedsXsi(d)
  {
    var cs := XrdChildren(d);
    if exists i {:trigger MarkedNil(cs[i])} :: 0 <= i < |cs| && MarkedNil(cs[i]) {
      var i :| 0 <= i < |cs| && MarkedNil(cs[i]);
      ChildNilRead(d, i);
    } else {
      var i, j :| 0 <= i < |cs| && 0 <= j < |cs[i].children| && MarkedNil(cs[i].children[j]);
      GrandchildNilRead(d, i, j);
    }
  }

  /** toXml declares the xsi namespace on the root exactly when some Property it writes is nil. */
  lemma XsiDeclaredIffNil(d: Descriptor)
    ensures EncodeXml(d).attrs == if NilInside(EncodeXml(d)) then [XsiDeclaration] else []
  {
    var e := EncodeXml(d);
    assert e.children == XrdChildren(d);
    if NeedsXsi(d) {
      NilWritten(d);
    }
    if NilAmong(XrdChildren(d)) {
      NilRead(d);
    }
  }

  /** Every property has a type, which parsePropertyNode demands of what it reads. */
  predicate TypedProperties(props: PropertyMap) {
    forall i :: 0 <= i < |props| ==> props[i].0 != ""
  }

  /** What toXml writes and setFromXml reads back unchanged. */
  ghost predicate XmlReadable(d: Descriptor) {
    ValidDescriptor(d) && TypedProperties(d.properties) &&
    forall i :: 0 <= i < |d.links| ==>
      TypedProperties(d.links[i].properties) && !(d.links[i].href.Some? && d.links[i].template.Some?)
  }

  lemma PropertyNodeRead(key: string, value: Option<string>)
    ensures PropertyKey(PropertyNode(key, value)) == key
    ensures PropertyNodeValue(PropertyNode(key, value)) == value
  {
    PropertyNodeNil(key, value);
  }

  /** The Property elements toXml writes parse back to the same properties. */
  lemma PropertyNodesRoundTrip(props: PropertyMap)
    requires UniqueKeys(props) && TypedProperties(props)
    ensures PropertiesFromXml(PropertyNodes(props)) == Success(props)
  {
    var nodes := PropertyNodes(props);
    assert XmlPropertyEntries(nodes) == props by {
      forall i | 0 <= i < |props| ensures XmlPropertyEntries(nodes)[i] == props[i] {
        PropertyNodeRead(props[i].0, props[i].1);
      }
    }
    assert "" !in PropertyKeys(nodes) by {
      forall i | 0 <= i < |nodes| ensures PropertyKeys(nodes)[i] != "" {
        PropertyNodeRead(props[i].0, props[i].1);
      }
    }
    PutAllOfUnique(props);
  }

  lemma TitleNodeRead(lang: string, title: string)
    requires !IsEmptyPhp(lang)
    ensures TitleKey(TitleLang(TitleNode(lang, title))) == lang
  {
  }

  /** The Title elements toXml writes are filed back under the same languages. */
  lemma TitleNodesRoundTrip(titles: OrderedMap<string>)
    requires ValidTitles(titles)
    ensures TitlesFromXml(TitleNodes(titles)) == titles
  {
    var nodes := TitleNodes(titles);
    forall i | 0 <= i < |titles| ensures XmlTitleEntries(nodes)[i] == titles[i] {
      TitleNodeRead(titles[i].0, titles[i].1);
    }
    assert XmlTitleEntries(nodes) == titles;
    PutAllOfUnique(titles);
  }

  lemma OptionalAttrLookup(name: string, v: Option<string>, wanted: string)
    ensures Attr(OptionalAttr(name, v), "", wanted) == if name == wanted then v else None
  {
  }

  /** The attributes of a Link element give back the link's rel, type, href and template. */
  lemma LinkXmlAttrs(l: Link, name: string)
    requires name == "rel" || name == "type" || name == "href" || name == "template"
    ensures Attr(LinkToXml(l).attrs, "", name) ==
      if name == "rel" then l.rel else if name == "type" then l.mediaType else if name == "href" then l.href else l.template
  {
    var r := OptionalAttr("rel", l.rel);
    var t := OptionalAttr("type", l.mediaType);
    var h := OptionalAttr("href", l.href);
    var p := OptionalAttr("template", l.template);
    AttrAppend(r, t, "", name);
    AttrAppend(r + t, h, "", name);
    AttrAppend(r + t + h, p, "", name);
    OptionalAttrLookup("rel", l.rel, name);
    OptionalAttrLookup("type", l.mediaType, name);
    OptionalAttrLookup("href", l.href, name);
    OptionalAttrLookup("template", l.template, name);
  }

  /** A link without both href and template, whose properties all have a type, survives toXml and setFromXml. */
  lemma LinkXmlRoundTrip(l: Link)
    requires ValidLink(l) && TypedProperties(l.properties) && !(l.href.Some? && l.template.Some?)
    ensures LinkFromXml(LinkToXml(l)) == Success(l)
  {
    var e := LinkToXml(l);
    var ts := TitleNodes(l.titles);
    var ps := PropertyNodes(l.properties);
    assert ChildrenNamed(e.children, "Title") == ts by {
      ChildrenNamedAppend(ts, ps, "Title");
      ChildrenNamedAll(ts, "Title");
      ChildrenNamedNone(ps, "Title");
    }
    assert ChildrenNamed(e.children, "Property") == ps by {
      ChildrenNamedAppend(ts, ps, "Property");
      ChildrenNamedNone(ts, "Property");
      ChildrenNamedAll(ps, "Property");
    }
    TitleNodesRoundTrip(l.titles);
    PropertyNodesRoundTrip(l.properties);
    PutAllOfUnique(l.properties);
    LinkXmlAttrs(l, "rel");
    LinkXmlAttrs(l, "type");
    LinkXmlAttrs(l, "href");
    LinkXmlAttrs(l, "template");
  }

  lemma {:induction false} LinksXmlRoundTrip(links: seq<Link>)
    requires forall i :: 0 <= i < |links| ==>
      ValidLink(links[i]) && TypedProperties(links[i].properties) && !(links[i].href.Some? && links[i].template.Some?)
    ensures LinksFromXml(LinkNodes(links)) == Success(links)
    decreases |links|
  {
    if |links| > 0 {
      var n := |links| - 1;
      var nodes := LinkNodes(links);
      assert nodes[..n] == LinkNodes(links[..n]);
      LinksXmlRoundTrip(links[..n]);
      assert LinksFromXml(nodes[..n]) == Success(links[..n]);
      LinkXmlRoundTrip(links[n]);
      assert LinkFromXml(nodes[n]) == Success(links[n]);
      PrefixSnoc(links);
    }
  }

  /** Under each name of an XRD child, setFromXml finds exactly the segment toXml wrote under it. */
  lemma FoundSegment(d: Descriptor, k: nat)
    requires k < 5
    ensures ChildrenNamed(XrdChildren(d), XrdNames[k]) == XrdSegments(d)[k]
  {
    assert forall i, j :: 0 <= i < j < 5 ==> XrdNames[i] != XrdNames[j];
    Flatten5(SubjectNodes(d.subject), ExpiresNodes(d.expires), AliasNodes(d.aliases), PropertyNodes(d.properties), LinkNodes(d.links));
    ChildrenNamedFlatten(XrdSegments(d), XrdNames, k);
  }

  /** setFromXml reads back the subject, expiry and aliases toXml writes. */
  lemma XmlHeadRead(d: Descriptor)
    ensures var cs := XrdChildren(d);
      SubjectOf(cs) == d.subject && ExpiresOf(cs) == d.expires && Texts(ChildrenNamed(cs, "Alias")) == d.aliases
  {
    var cs := XrdChildren(d);
    assert SubjectOf(cs) == d.subject by { FoundSegment(d, 0); }
    assert ExpiresOf(cs) == d.expires by { FoundSegment(d, 1); }
    assert Texts(ChildrenNamed(cs, "Alias")) == d.aliases by { FoundSegment(d, 2); }
  }

  /** setFromXml reads back the properties and links toXml writes, when they are readable. */
  lemma XmlTailRead(d: Descriptor)
    requires XmlReadable(d)
    ensures var cs := XrdChildren(d);
      PropertiesFromXml(ChildrenNamed(cs, "Property")) == Success(d.properties) &&
      LinksFromXml(ChildrenNamed(cs, "Link")) == Success(d.links)
  {
    var cs := XrdChildren(d);
    assert PropertiesFromXml(ChildrenNamed(cs, "Property")) == Success(d.properties) by {
      FoundSegment(d, 3);
      PropertyNodesRoundTrip(d.properties);
    }
    assert LinksFromXml(ChildrenNamed(cs, "Link")) == Success(d.links) by {
      FoundSegment(d, 4);
      LinksXmlRoundTrip(d.links);
    }
  }

  /** fromXml(toXml()) rebuilds the document when every property has a type and no link has both href and template. */
  lemma XmlRoundTrip(d: Descriptor)
    requires XmlReadable(d)
    ensures ParseXrd(Some(EncodeXml(d))) == Success(d)
  {
    XmlHeadRead(d);
    XmlTailRead(d);
    assert EncodeXml(d).children == XrdChildren(d);
  }

  /** A property stored under an empty type is written by toXml but rejected when read back. */
  lemma UntypedPropertyNotReadBack()
    ensures var d := NewDescriptor("acct:alice@example.com").(properties := [("", Some("x"))]);
      ValidDescriptor(d) && ParseXrd(Some(EncodeXml(d))) == Failure(UnexpectedValue(EmptyPropertyType))
  {
    var d := NewDescriptor("acct:alice@example.com").(properties := [("", Some("x"))]);
    FoundSegment(d, 3);
    PropertyNodeRead("", Some("x"));
    assert PropertyKeys(PropertyNodes(d.properties))[0] == "";
  }

  /** setFromXml on the failure of one link stops the rest: the first Link that fails decides the error. */
  lemma LinksFromXmlFailsAt(nodes: seq<Element>, i: nat)
    requires i < |nodes|
    requires LinksFromXml(nodes[..i]).Success? && LinkFromXml(nodes[i]).Failure?
    ensures LinksFromXml(nodes) == Failure(LinkFromXml(nodes[i]).error)
  {
    DecodeAllFailsAt(LinkFromXml, nodes, i);
  }

  /** One more Property element adds one entry and one key. */
  lemma PropertyEntriesSnoc(nodes: seq<Element>, i: nat)
    requires i < |nodes|
    ensures XmlPropertyEntries(nodes[..i + 1]) == XmlPropertyEntries(nodes[..i]) + [(PropertyKey(nodes[i]), PropertyNodeValue(nodes[i]))]
    ensures PropertyKeys(nodes[..i + 1]) == PropertyKeys(nodes[..i]) + [PropertyKey(nodes[i])]
  {
    assert nodes[..i + 1][i] == nodes[i];
    assert forall k :: 0 <= k < i ==> nodes[..i + 1][k] == nodes[..i][k];
  }

  lemma NodesSnoc(aliases: seq<string>, links: seq<Link>, i: nat)
    ensures i < |aliases| ==> AliasNodes(aliases[..i + 1]) == AliasNodes(aliases[..i]) + [Element("Alias", [], aliases[i], [])]
    ensures i < |links| ==> LinkNodes(links[..i + 1]) == LinkNodes(links[..i]) + [LinkToXml(links[i])]
  {
  }

  /** One more link has a nil property exactly when the shorter list or the new link has one. */
  lemma NeedsXsiSnoc(d: Descriptor, i: nat)
    requires i < |d.links|
    ensures NeedsXsi(d.(links := d.links[..i + 1])) <==> NeedsXsi(d.(links := d.links[..i])) || HasNil(d.links[i].properties)
  {
    assert d.links[..i + 1][i] == d.links[i];
    assert forall j :: 0 <= j < i ==> d.links[..i + 1][j] == d.links[..i][j];
  }

  // ---------------------------------------------------------------------------------------
  // The mutable object

  /** What addLink may be given: a LinkElement, an array, or anything else. */
  datatype LinkArgument =
    | LinkObject(element: LinkElement)
    | LinkArray(members: seq<(string, Json)>)
    | OtherValue

  class General {
    var subject: string
    var expires: Option<string>
    var aliases: seq<string>
    var properties: PropertyMap
    var links: seq<Link>

    /** The document the fields hold. */
    function Value(): Descriptor
      reads this
    {
      Descriptor(subject, expires, aliases, properties, links)
    }

    ghost predicate Valid()
      reads this
    {
      ValidDescriptor(Value())
    }

    constructor (subject: string := "")
      ensures Valid()
      ensures Value() == NewDescriptor(subject)
    {
      this.subject := subject;
      this.expires := None;
      this.aliases := [];
      this.properties := [];
      this.links := [];
    }

    method SetSubject(subject: string)
      modifies this
      ensures Value() == old(Value()).(subject := subject)
    {
      this.subject := subject;
    }

    method SetExpires(expires: string)
      modifies this
      ensures Value() == old(Value()).(expires := Some(expires))
    {
      this.expires := Some(expires);
    }

    method AddAlias(alias: string)
      modifies this
      ensures Value() == old(Value()).(aliases := old(aliases) + [alias])
    {
      aliases := aliases + [alias];
    }

    function GetProperty(key: string): Option<string>
      reads this
    {
      PropertyValue(properties, key)
    }

    method SetProperty(key: string, value: Option<string>)
      requires Valid()
      modifies this
      ensures Valid()
      ensures Value() == old(Value()).(properties := Put(old(properties), key, value))
    {
      properties := Put(properties, key, value);
    }

    /** setProperties: setProperty for each pair in turn. */
    method SetProperties(entries: PropertyMap)
      requires Valid()
      modifies this
      ensures Valid()
      ensures Value() == old(Value()).(properties := PutAll(old(properties), entries))
    {
      for i := 0 to |entries|
        invariant Valid()
        invariant Value() == old(Value()).(properties := PutAll(old(properties), entries[..i]))
      {
        PutAllStep(old(properties), entries, i);
        SetProperty(entries[i].0, entries[i].1);
      }
      assert entries[..|entries|] == entries;
    }

    method FindLinkElements(rel: string) returns (found: seq<Link>)
      ensures found == MatchingLinks(links, rel)
    {
      found := [];
      for i := 0 to |links|
        invariant found == MatchingLinks(links[..i], rel)
      {
        assert links[..i + 1][..i] == links[..i];
        if EqualsIgnoreCase(links[i].rel.GetOr(""), rel) {
          found := found + [links[i]];
        }
      }
      assert links[..|links|] == links;
    }

    method FindFirstLinkElement(rel: string) returns (found: Option<Link>)
      ensures found == FirstMatchingLink(links, rel)
    {
      for i := 0 to |links|
        invariant forall j :: 0 <= j < i ==> !RelMatches(links[j], rel)
      {
        if EqualsIgnoreCase(links[i].rel.GetOr(""), rel) {
          return Some(links[i]);
        }
      }
      return None;
    }

    /** addLink: a LinkElement is appended as it is, an array through LinkElement::fromArray; anything else is ignored. */
    method AddLink(link: LinkArgument)
      requires Valid()
      requires link.LinkObject? ==> link.element.Valid()
      modifies this
      ensures Valid()
      ensures Value() == old(Value()).(links := old(links) +
        match link
        case LinkObject(e) => [e.Value()]
        case LinkArray(ms) => [LinkFromArray(ms)]
        case OtherValue => [])
    {
      match link
      case LinkObject(e) =>
        links := links + [e.Value()];
      case LinkArray(ms) =>
        var linkElement := LinkElement.FromArray(ms);
        links := links + [linkElement.Value()];
      case OtherValue =>
    }

    method ToXml() returns (xml: Element)
      ensures xml == EncodeXml(Value())
    {
      var children: seq<Element> := [];
      var usesXsi := false;
      if subject != "" {
        children := children + [Element("Subject", [], subject, [])];
      }
      if expires.Some? {
        children := children + [Element("Expires", [], expires.value, [])];
      }
      ghost var head := SubjectNodes(subject) + ExpiresNodes(expires);
      assert children == head;
      for i := 0 to |aliases|
        invariant children == head + AliasNodes(aliases[..i])
      {
        NodesSnoc(aliases, [], i);
        children := children + [Element("Alias", [], aliases[i], [])];
      }
      assert aliases[..|aliases|] == aliases;
      var propertyNodes;
      propertyNodes, usesXsi := BuildPropertyNodes(properties);
      children := children + propertyNodes;
      ghost var body := children;
      for i := 0 to |links|
        invariant children == body + LinkNodes(links[..i])
        invariant usesXsi <==> NeedsXsi(Value().(links := links[..i]))
      {
        var node, usesNil := BuildLinkNode(links[i]);
        NodesSnoc([], links, i);
        NeedsXsiSnoc(Value(), i);
        children := children + [node];
        usesXsi := usesXsi || usesNil;
      }
      assert links[..|links|] == links;
      assert Value().(links := links) == Value();
      xml := Element("XRD", if usesXsi then [XsiDeclaration] else [], "", children);
    }

    method ToJson() returns (jrd: Json)
      ensures jrd == EncodeJson(Value())
    {
      ghost var fs := DescriptorFields(Value());
      FieldsOfFive(fs);
      var data: seq<(string, Json)> := [];
      if subject != "" {
        data := data + [("subject", JString(subject))];
      }
      ghost var f0 := Field(fs[0].0, fs[0].1);
      assert data == f0;
      if expires.Some? {
        data := data + [("expires", JString(expires.value))];
      }
      ghost var f1 := f0 + Field(fs[1].0, fs[1].1);
      assert data == f1;
      if aliases != [] {
        data := data + [("aliases", StringsJson(aliases))];
      }
      ghost var f2 := f1 + Field(fs[2].0, fs[2].1);
      assert data == f2;
      if properties != [] {
        data := data + [("properties", PropertiesJson(properties))];
      }
      ghost var f3 := f2 + Field(fs[3].0, fs[3].1);
      assert data == f3;
      if links != [] {
        var items := LinkItems(links);
        data := data + [("links", JArray(items))];
      }
      assert data == f3 + Field(fs[4].0, fs[4].1);
      jrd := JObject(data);
    }

    /** The links loop of toJson: toArray of each link, in order. */
    static method LinkItems(links: seq<Link>) returns (items: seq<Json>)
      ensures JArray(items) == LinksJson(links)
    {
      items := [];
      for i := 0 to |links|
        invariant |items| == i
        invariant forall k :: 0 <= k < i ==> items[k] == LinkToArray(links[k])
      {
        items := items + [LinkToArray(links[i])];
      }
    }

    /** parsePropertyNode: each Property stored under its type in turn; the first without a type throws. */
    static method ParsePropertyNode(nodes: seq<Element>) returns (r: Result<PropertyMap, XrdError>)
      ensures r == PropertiesFromXml(nodes)
    {
      var props: PropertyMap := [];
      for i := 0 to |nodes|
        invariant props == PutAll([], XmlPropertyEntries(nodes[..i]))
        invariant "" !in PropertyKeys(nodes[..i])
      {
        var key := Attr(nodes[i].attrs, "", "type").GetOr("");
        if key == "" {
          assert PropertyKeys(nodes)[i] == "";
          return Failure(UnexpectedValue(EmptyPropertyType));
        }
        var value: Option<string> := Some(nodes[i].text);
        if Attr(nodes[i].attrs, XsiNamespace, "nil") == Some("true") {
          value := None;
        }
        PropertyEntriesSnoc(nodes, i);
        props := Put(props, key, value);
      }
      assert nodes[..|nodes|] == nodes;
      return Success(props);
    }

    /** The Title loop of setFromXml: setTitle with each Title's text and language, in document order. */
    static method SetTitlesFromXml(link: LinkElement, titleNodes: seq<Element>)
      requires link.Valid()
      modifies link
      ensures link.Valid()
      ensures link.Value() == old(link.Value()).(titles := PutAll(old(link.titles), XmlTitleEntries(titleNodes)))
    {
      var entries := XmlTitleEntries(titleNodes);
      for i := 0 to |titleNodes|
        invariant link.Valid()
        invariant link.Value() == old(link.Value()).(titles := PutAll(old(link.titles), entries[..i]))
      {
        var lang := Attr(titleNodes[i].attrs, "", "lang");
        var xmlLang := Attr(titleNodes[i].attrs, XmlNamespace, "lang");
        if xmlLang.Some? {
          lang := xmlLang;
        }
        PutAllStep(old(link.titles), entries, i);
        link.SetTitle(titleNodes[i].text, lang);
      }
      assert entries[..|titleNodes|] == entries;
    }

    /** The Link branch of setFromXml: a LinkElement from the attributes, then setTitle for each Title and setProperties with the parsed Properties. */
    static method ParseLinkNode(node: Element) returns (r: Result<LinkElement, XrdError>)
      ensures r.Failure? <==> LinkFromXml(node).Failure?
      ensures r.Failure? ==> r.error == LinkFromXml(node).error
      ensures r.Success? ==> fresh(r.value) && r.value.Valid() && r.value.Value() == LinkFromXml(node).value
    {
      var rel := Attr(node.attrs, "", "rel");
      var mediaType := Attr(node.attrs, "", "type");
      var template := Attr(node.attrs, "", "template");
      var link: LinkElement;
      if template.Some? {
        link := new LinkElement(rel, template, mediaType, true);
      } else {
        link := new LinkElement(rel, Attr(node.attrs, "", "href"), mediaType);
      }
      SetTitlesFromXml(link, ChildrenNamed(node.children, "Title"));
      var parsed := ParsePropertyNode(ChildrenNamed(node.children, "Property"));
      if parsed.Failure? {
        return Failure(parsed.error);
      }
      link.SetProperties(parsed.value);
      return Success(link);
    }

    /** setFromXml on the parsed document (`None` for text that is not XML); the error it throws, if any. */
    method SetFromXml(doc: Option<Element>) returns (error: Option<XrdError>)
      modifies this
      ensures error.Some? <==> ParseXrd(doc).Failure?
      ensures error.Some? ==> error.value == ParseXrd(doc).error
      ensures error.None? ==> Valid() && Value() == ParseXrd(doc).value
    {
      if doc.None? {
        return Some(UnexpectedValue(InvalidXml));
      }
      var xml := doc.value;
      if xml.name != "XRD" {
        return Some(UnexpectedValue(InvalidXrd));
      }
      subject := SubjectOf(xml.children);
      expires := ExpiresOf(xml.children);
      aliases := ParseAliasNodes(ChildrenNamed(xml.children, "Alias"));
      var parsed := ParsePropertyNode(ChildrenNamed(xml.children, "Property"));
      if parsed.Failure? {
        return Some(parsed.error);
      }
      properties := parsed.value;
      var parsedLinks := ParseLinkNodes(ChildrenNamed(xml.children, "Link"));
      if parsedLinks.Failure? {
        return Some(parsedLinks.error);
      }
      links := parsedLinks.value;
      return None;
    }

    /** The Alias loop of setFromXml: each Alias's text appended in turn. */
    static method ParseAliasNodes(nodes: seq<Element>) returns (aliases: seq<string>)
      ensures aliases == Texts(nodes)
    {
      aliases := [];
      for i := 0 to |nodes|
        invariant aliases == Texts(nodes[..i])
      {
        assert Texts(nodes[..i + 1]) == Texts(nodes[..i]) + [nodes[i].text];
        aliases := aliases + [nodes[i].text];
      }
      assert nodes[..|nodes|] == nodes;
    }

    /** The Link loop of setFromXml: each Link element read in turn; the first that fails throws. */
    static method ParseLinkNodes(nodes: seq<Element>) returns (r: Result<seq<Link>, XrdError>)
      ensures r == LinksFromXml(nodes)
    {
      var links: seq<Link> := [];
      for i := 0 to |nodes|
        invariant LinksFromXml(nodes[..i]) == Success(links)
      {
        var link := ParseLinkNode(nodes[i]);
        if link.Failure? {
          LinksFromXmlFailsAt(nodes, i);
          return Failure(link.error);
        }
        DecodeAllStep(LinkFromXml, nodes, i);
        links := links + [link.value.Value()];
      }
      assert nodes[..|nodes|] == nodes;
      return Success(links);
    }

    /** fromXml: a new document read from the parsed XML, or the error setFromXml throws. */
    static method FromXml(doc: Option<Element>) returns (r: Result<General, XrdError>)
      ensures r.Failure? <==> ParseXrd(doc).Failure?
      ensures r.Failure? ==> r.error == ParseXrd(doc).error
      ensures r.Success? ==> fresh(r.value) && r.value.Valid() && r.value.Value() == ParseXrd(doc).value
    {
      var rd := new General();
      var error := rd.SetFromXml(doc);
      if error.Some? {
        return Failure(error.value);
      }
      return Success(rd);
    }

    /** A link of setFromArray: constructed from rel, type and template (which wins) or href, then setTitle per title and setProperties. */
    static method ArrayLink(j: Json) returns (link: LinkElement)
      ensures fresh(link) && link.Valid() && link.Value() == JrdLink(j)
    {
      var ms := Members(j);
      var rel := StringMember(ms, "rel");
      var mediaType := StringMember(ms, "type");
      var template := StringMember(ms, "template");
      if template.Some? {
        link := new LinkElement(rel, template, mediaType, true);
      } else {
        link := new LinkElement(rel, StringMember(ms, "href"), mediaType);
      }
      var titles := IssetMember(ms, "titles");
      if titles.Some? {
        link.SetTitlesFromJson(titles.value);
      }
      var props := IssetMember(ms, "properties");
      if props.Some? {
        link.SetProperties(PropertyEntries(Members(props.value)));
      }
    }

    /** setFromArray: every field replaced from the array, links rebuilt one by one. */
    method SetFromArray(members: seq<(string, Json)>)
      modifies this
      ensures Valid() && Value() == DecodeArray(members)
    {
      ghost var d := DecodeArray(members);
      subject := TextOf(Get(members, "subject").GetOr(JNull));
      expires := StringMember(members, "expires");
      var a := IssetMember(members, "aliases");
      aliases := if a.Some? then JsonTexts(Items(a.value)) else [];
      var p := IssetMember(members, "properties");
      properties := if p.Some? then PropertiesFromJson(p.value) else [];
      links := [];
      var l := IssetMember(members, "links");
      if l.Some? {
        var items := Items(l.value);
        for i := 0 to |items|
          invariant Value() == d.(links := JrdLinks(items[..i]))
        {
          var link := ArrayLink(items[i]);
          MapSeqSnoc(JrdLink, items, i);
          links := links + [link.Value()];
        }
        assert items[..|items|] == items;
      }
      DecodeArrayValid(members);
    }

    /** fromJson on the decoded JSON value (JNull for text that is not JSON). */
    static method FromJson(data: Json) returns (r: Result<General, XrdError>)
      ensures r.Failure? <==> DecodeJson(data).Failure?
      ensures r.Failure? ==> r.error == DecodeJson(data).error
      ensures r.Success? ==> fresh(r.value) && r.value.Valid() && r.value.Value() == DecodeJson(data).value
    {
      match data
      case JNull =>
        return Failure(UnexpectedValue(InvalidJson));
      case JString(_) =>
        return Failure(TypeMismatch(NotAnArray));
      case JArray(_) =>
        var rd := new General();
        rd.SetFromArray([]);
        return Success(rd);
      case JObject(ms) =>
        var rd := new General();
        rd.SetFromArray(ms);
        return Success(rd);
    }
  }
}
