/**
 * An XRD/JRD Link (LinkElement): relation, media type, either a target URI or a URI template,
 * titles keyed by language and properties keyed by type URI. The class keeps the fields the
 * PHP object updates; `Value()` reads them off as a `Link` value, and the codecs between a
 * link and its JSON array and XML element are functions on that value.
 */
module Links {
  import opened Wrappers
  import opened OrderedMaps
  import opened Text
  import opened Trees

  /** The language key a title without a language is stored under. */
  const TitleLangDefault := "default"

  /** Properties: type URI to value, where `None` is a nil value. */
  type PropertyMap = OrderedMap<Option<string>>

  datatype Link = Link(
    rel: Option<string>,
    mediaType: Option<string>,
    href: Option<string>,
    template: Option<string>,
    titles: OrderedMap<string>,
    properties: PropertyMap)

  /** Titles as setTitle leaves them: distinct languages, none of them "" or "0". */
  ghost predicate ValidTitles(titles: OrderedMap<string>) {
    UniqueKeys(titles) && forall i :: 0 <= i < |titles| ==> !IsEmptyPhp(titles[i].0)
  }

  ghost predicate ValidLink(l: Link) {
    ValidTitles(l.titles) && UniqueKeys(l.properties)
  }

  /** What the constructor builds: the second argument is the href, or the template when `isTemplate`. */
  function NewLink(rel: Option<string>, href: Option<string>, mediaType: Option<string>, isTemplate: bool): (l: Link)
    ensures ValidLink(l)
    ensures l.rel == rel && l.mediaType == mediaType
    ensures (if isTemplate then l.template else l.href) == href
    ensures (if isTemplate then l.href else l.template).None?
    ensures l.titles == [] && l.properties == []
  {
    if isTemplate then Link(rel, mediaType, None, href, [], [])
    else Link(rel, mediaType, href, None, [], [])
  }

  /** The key setTitle stores a title under: an empty language ("", "0" or none) becomes "default". */
  function TitleKey(lang: Option<string>): (k: string)
    ensures !IsEmptyPhp(k)
    ensures k == TitleLangDefault <==> IsEmptyOrNull(lang) || lang == Some(TitleLangDefault)
    ensures !IsEmptyOrNull(lang) ==> k == lang.value
  {
    if IsEmptyOrNull(lang) then TitleLangDefault else lang.value
  }

  /** getTitle: only a missing language means "default"; any other language is looked up as given. */
  function TitleOf(titles: OrderedMap<string>, lang: Option<string>): (r: Option<string>)
    ensures r.None? <==> !HasKey(titles, lang.GetOr(TitleLangDefault))
    ensures r.Some? ==> exists i :: 0 <= i < |titles| && titles[i] == (lang.GetOr(TitleLangDefault), r.value)
  {
    Get(titles, lang.GetOr(TitleLangDefault))
  }

  /** getProperty: a value when the key is set to a non-nil value, null otherwise. */
  function PropertyValue(props: PropertyMap, key: string): (r: Option<string>)
    ensures r.Some? <==> Get(props, key).Some? && Get(props, key).value.Some?
    ensures r.Some? ==> Get(props, key) == Some(r)
    ensures UniqueKeys(props) ==> forall i :: 0 <= i < |props| && props[i].0 == key ==> r == props[i].1
  {
    match Find(props, key)
    case None => None
    case Some(i) => props[i].1
  }

  /** A title stored by setTitle is found by getTitle under the same language, or with none when it was empty. */
  lemma SetTitleThenGet(titles: OrderedMap<string>, title: string, lang: Option<string>)
    ensures TitleOf(Put(titles, TitleKey(lang), title), if IsEmptyOrNull(lang) then None else lang) == Some(title)
  {
    PutGet(titles, TitleKey(lang), title, TitleKey(lang));
  }

  /** getTitle does not normalise: asking for language "" or "0" finds nothing, although setTitle files those under "default". */
  lemma GetTitleEmptyLangMisses(titles: OrderedMap<string>)
    requires ValidTitles(titles)
    ensures TitleOf(titles, Some("")) == None && TitleOf(titles, Some("0")) == None
  {
    assert !HasKey(titles, "") && !HasKey(titles, "0");
  }

  /** Storing a title under a non-empty language keeps the titles valid. */
  lemma {:induction false} PutTitleValid(titles: OrderedMap<string>, k: string, title: string)
    requires ValidTitles(titles) && !IsEmptyPhp(k)
    ensures ValidTitles(Put(titles, k, title))
  {
    var r := Put(titles, k, title);
    forall i | 0 <= i < |r| ensures !IsEmptyPhp(r[i].0) {
      if i < |titles| {
        assert r[i].0 == titles[i].0;
      } else {
        assert r == titles + [(k, title)];
      }
    }
  }

  // ---------------------------------------------------------------------------------------
  // toArray: the JSON array of a link

  function StringJson(v: Option<string>): Option<Json> {
    if v.Some? then Some(JString(v.value)) else None
  }

  /** A property value as JSON: a string, or null for nil. */
  function PropertyJson(v: Option<string>): Json {
    if v.Some? then JString(v.value) else JNull
  }

  function TitlesJson(titles: OrderedMap<string>): Json {
    JObject(seq(|titles|, i requires 0 <= i < |titles| => (titles[i].0, JString(titles[i].1))))
  }

  function PropertiesJson(props: PropertyMap): Json {
    JObject(seq(|props|, i requires 0 <= i < |props| => (props[i].0, PropertyJson(props[i].1))))
  }

  /** An object member for a non-empty array. */
  function NonEmpty<T>(s: seq<T>, j: Json): Option<Json> {
    if |s| > 0 then Some(j) else None
  }

  /** The members toArray may write, in its order: rel, type, href, template when not null, titles and properties when not empty. */
  function LinkFields(l: Link): seq<(string, Option<Json>)> {
    [("rel", StringJson(l.rel)),
     ("type", StringJson(l.mediaType)),
     ("href", StringJson(l.href)),
     ("template", StringJson(l.template)),
     ("titles", NonEmpty(l.titles, TitlesJson(l.titles))),
     ("properties", NonEmpty(l.properties, PropertiesJson(l.properties)))]
  }

  /** toArray. */
  function LinkToArray(l: Link): Json {
    JObject(Fields(LinkFields(l)))
  }

  lemma LinkFieldsDistinct(l: Link)
    ensures DistinctNames(LinkFields(l))
  {
    var fs := LinkFields(l);
    forall i, j | 0 <= i < j < |fs| ensures fs[i].0 != fs[j].0 {
      if |fs[i].0| == |fs[j].0| {
        assert fs[i].0[0] != fs[j].0[0];
      }
    }
  }

  /** Looking up each member of toArray's result finds exactly the field it was built from. */
  lemma LinkToArrayMembers(l: Link, m: nat)
    requires m < 6
    ensures Get(LinkToArray(l).members, LinkFields(l)[m].0) == LinkFields(l)[m].1
  {
    LinkFieldsDistinct(l);
    FieldsGet(LinkFields(l), m);
  }

  /**
   * toArray never writes a null member: absent fields are left out. Its keys are distinct and
   * are exactly the fields that are set.
   */
  lemma LinkToArrayShape(l: Link)
    ensures LinkToArray(l).JObject?
    ensures var m := LinkToArray(l).members;
      UniqueKeys(m) &&
      (forall i :: 0 <= i < |m| ==> m[i].1 != JNull) &&
      (HasKey(m, "rel") <==> l.rel.Some?) &&
      (HasKey(m, "type") <==> l.mediaType.Some?) &&
      (HasKey(m, "href") <==> l.href.Some?) &&
      (HasKey(m, "template") <==> l.template.Some?) &&
      (HasKey(m, "titles") <==> |l.titles| > 0) &&
      (HasKey(m, "properties") <==> |l.properties| > 0)
  {
    var m := LinkToArray(l).members;
    assert UniqueKeys(m) && forall i :: 0 <= i < |m| ==> m[i].1 != JNull by {
      LinkFieldsDistinct(l);
      FieldsShape(LinkFields(l));
    }
    assert HasKey(m, "rel") <==> l.rel.Some? by { LinkToArrayMembers(l, 0); }
    assert HasKey(m, "type") <==> l.mediaType.Some? by { LinkToArrayMembers(l, 1); }
    assert HasKey(m, "href") <==> l.href.Some? by { LinkToArrayMembers(l, 2); }
    assert HasKey(m, "template") <==> l.template.Some? by { LinkToArrayMembers(l, 3); }
    assert HasKey(m, "titles") <==> |l.titles| > 0 by { LinkToArrayMembers(l, 4); }
    assert HasKey(m, "properties") <==> |l.properties| > 0 by { LinkToArrayMembers(l, 5); }
  }

  // ---------------------------------------------------------------------------------------
  // fromArray / setFromArray: a link from its JSON array

  /** `isset($a[$key])`: the member when it is present and not null. */
  function IssetMember(members: seq<(string, Json)>, key: string): (r: Option<Json>)
    ensures r.Some? ==> r.value != JNull && Get(members, key) == r
    ensures r.None? ==> Get(members, key) == None || Get(members, key) == Some(JNull)
  {
    var v: Option<Json> := Get(members, key);
    if v.Some? && v.value != JNull then v else None
  }

  /** A string field is replaced when the array sets it, and kept otherwise. */
  function Override(members: seq<(string, Json)>, key: string, current: Option<string>): Option<string> {
    var v := StringMember(members, key);
    if v.Some? then v else current
  }

  /** The (language, title) pairs of a titles object, each language filed as setTitle files it. */
  function TitleEntries(members: seq<(string, Json)>): (r: OrderedMap<string>)
    ensures |r| == |members|
    ensures forall i :: 0 <= i < |r| ==> r[i] == (TitleKey(Some(members[i].0)), TextOf(members[i].1))
  {
    seq(|members|, i requires 0 <= i < |members| => (TitleKey(Some(members[i].0)), TextOf(members[i].1)))
  }

  /** A property value from JSON: a string, or nil. */
  function PropertyText(j: Json): Option<string> {
    if j.JString? then Some(j.str) else None
  }

  function PropertyEntries(members: seq<(string, Json)>): (r: PropertyMap)
    ensures |r| == |members|
    ensures forall i :: 0 <= i < |r| ==> r[i] == (members[i].0, PropertyText(members[i].1))
  {
    seq(|members|, i requires 0 <= i < |members| => (members[i].0, PropertyText(members[i].1)))
  }

  /** Filing titles under non-empty languages into an empty array leaves valid titles. */
  lemma TitlesOfEntriesValid(entries: OrderedMap<string>)
    requires forall i :: 0 <= i < |entries| ==> !IsEmptyPhp(entries[i].0)
    ensures ValidTitles(PutAll([], entries))
  {
    var t := PutAll([], entries);
    PutAllUnique([], entries);
    PutAllKeysFrom([], entries);
    forall i | 0 <= i < |t| ensures !IsEmptyPhp(t[i].0) {
      var k := t[i].0;
      assert HasKey(entries, k);
      var j :| 0 <= j < |entries| && entries[j].0 == k;
    }
  }

  /** The titles a foreach of setTitle over a JSON titles object leaves in an empty array. */
  function TitlesFromJson(j: Json): (t: OrderedMap<string>)
    ensures ValidTitles(t)
  {
    TitlesOfEntriesValid(TitleEntries(Members(j)));
    PutAll([], TitleEntries(Members(j)))
  }

  /** The properties setProperties leaves in an empty array. */
  function PropertiesFromJson(j: Json): (p: PropertyMap)
    ensures UniqueKeys(p)
  {
    var entries := PropertyEntries(Members(j));
    PutAllUnique([], entries);
    PutAll([], entries)
  }

  /**
   * setFromArray: each field the array sets (isset) replaces the link's, and a field it does
   * not set keeps its value; titles and properties are rebuilt from an empty array.
   */
  function ApplyArray(l: Link, members: seq<(string, Json)>): (r: Link)
    ensures ValidLink(l) ==> ValidLink(r)
    ensures StringMember(members, "rel").Some? ==> r.rel == StringMember(members, "rel")
    ensures StringMember(members, "rel").None? ==> r.rel == l.rel
    ensures StringMember(members, "type").Some? ==> r.mediaType == StringMember(members, "type")
    ensures StringMember(members, "type").None? ==> r.mediaType == l.mediaType
    ensures StringMember(members, "href").Some? ==> r.href == StringMember(members, "href")
    ensures StringMember(members, "href").None? ==> r.href == l.href
    ensures StringMember(members, "template").Some? ==> r.template == StringMember(members, "template")
    ensures StringMember(members, "template").None? ==> r.template == l.template
    ensures IssetMember(members, "titles").Some? ==> r.titles == TitlesFromJson(IssetMember(members, "titles").value)
    ensures IssetMember(members, "titles").None? ==> r.titles == l.titles
    ensures IssetMember(members, "properties").Some? ==> r.properties == PropertiesFromJson(IssetMember(members, "properties").value)
    ensures IssetMember(members, "properties").None? ==> r.properties == l.properties
  {
    var titles := IssetMember(members, "titles");
    var props := IssetMember(members, "properties");
    Link(
      Override(members, "rel", l.rel),
      Override(members, "type", l.mediaType),
      Override(members, "href", l.href),
      Override(members, "template", l.template),
      if titles.Some? then TitlesFromJson(titles.value) else l.titles,
      if props.Some? then PropertiesFromJson(props.value) else l.properties)
  }

  /** fromArray: setFromArray on a link made with no arguments. */
  function LinkFromArray(members: seq<(string, Json)>): Link {
    ApplyArray(NewLink(None, None, None, false), members)
  }

  /** Titles survive the trip through JSON. */
  lemma TitlesRoundTrip(titles: OrderedMap<string>)
    requires ValidTitles(titles)
    ensures TitlesFromJson(TitlesJson(titles)) == titles
  {
    var entries := TitleEntries(Members(TitlesJson(titles)));
    assert entries == titles;
    PutAllOfUnique(titles);
  }

  /** Properties, nil values included, survive the trip through JSON. */
  lemma PropertiesRoundTrip(props: PropertyMap)
    requires UniqueKeys(props)
    ensures PropertiesFromJson(PropertiesJson(props)) == props
  {
    var entries := PropertyEntries(Members(PropertiesJson(props)));
    assert entries == props;
    PutAllOfUnique(props);
  }

  /** Each string field toArray writes is read back as that string, and an absent one as absent. */
  lemma StringFieldRead(l: Link, k: nat)
    requires k < 4
    ensures StringMember(LinkToArray(l).members, LinkFields(l)[k].0) == [l.rel, l.mediaType, l.href, l.template][k]
  {
    LinkToArrayMembers(l, k);
  }

  /** fromArray(toArray()) rebuilds rel, type, href and template. */
  lemma LinkArrayStrings(l: Link)
    ensures var r := LinkFromArray(LinkToArray(l).members);
      r.rel == l.rel && r.mediaType == l.mediaType && r.href == l.href && r.template == l.template
  {
    StringFieldRead(l, 0);
    StringFieldRead(l, 1);
    StringFieldRead(l, 2);
    StringFieldRead(l, 3);
  }

  /** fromArray(toArray()) rebuilds the titles and the properties. */
  lemma LinkArrayCollections(l: Link)
    requires ValidLink(l)
    ensures var r := LinkFromArray(LinkToArray(l).members);
      r.titles == l.titles && r.properties == l.properties
  {
    var m := LinkToArray(l).members;
    var r := LinkFromArray(m);
    assert r.titles == l.titles by {
      LinkToArrayMembers(l, 4);
      if |l.titles| > 0 {
        assert IssetMember(m, "titles") == Some(TitlesJson(l.titles));
        TitlesRoundTrip(l.titles);
      } else {
        assert IssetMember(m, "titles") == None;
      }
    }
    assert r.properties == l.properties by {
      LinkToArrayMembers(l, 5);
      if |l.properties| > 0 {
        assert IssetMember(m, "properties") == Some(PropertiesJson(l.properties));
        PropertiesRoundTrip(l.properties);
      } else {
        assert IssetMember(m, "properties") == None;
      }
    }
  }

  /** fromArray(toArray()) rebuilds the link. */
  lemma LinkArrayRoundTrip(l: Link)
    requires ValidLink(l)
    ensures LinkFromArray(LinkToArray(l).members) == l
  {
    LinkArrayStrings(l);
    LinkArrayCollections(l);
  }

  // ---------------------------------------------------------------------------------------
  // toXml: the XML element of a link

  /** A Title child: `xml:lang` unless the language is "default". */
  function TitleNode(lang: string, title: string): Element {
    Element("Title", if lang == TitleLangDefault then [] else [Attribute(XmlNamespace, "lang", lang)], title, [])
  }

  /** A Property child: its type, and `xsi:nil="true"` with empty text for a nil value. */
  function PropertyNode(key: string, value: Option<string>): Element {
    Element("Property",
      [Attribute("", "type", key)] + (if value.None? then [Attribute(XsiNamespace, "nil", "true")] else []),
      value.GetOr(""), [])
  }

  function TitleNodes(titles: OrderedMap<string>): (r: seq<Element>)
    ensures |r| == |titles|
    ensures forall i :: 0 <= i < |r| ==> r[i] == TitleNode(titles[i].0, titles[i].1)
  {
    seq(|titles|, i requires 0 <= i < |titles| => TitleNode(titles[i].0, titles[i].1))
  }

  function PropertyNodes(props: PropertyMap): (r: seq<Element>)
    ensures |r| == |props|
    ensures forall i :: 0 <= i < |r| ==> r[i] == PropertyNode(props[i].0, props[i].1)
  {
    seq(|props|, i requires 0 <= i < |props| => PropertyNode(props[i].0, props[i].1))
  }

  function OptionalAttr(name: string, v: Option<string>): seq<Attribute> {
    if v.Some? then [Attribute("", name, v.value)] else []
  }

  /** toXml: a Link element with rel, type, href, template when set, then Title and Property children. */
  function LinkToXml(l: Link): Element {
    Element("Link",
      OptionalAttr("rel", l.rel) + OptionalAttr("type", l.mediaType) + OptionalAttr("href", l.href) + OptionalAttr("template", l.template),
      "", TitleNodes(l.titles) + PropertyNodes(l.properties))
  }

  /** Some property is nil. */
  predicate HasNil(props: PropertyMap) {
    exists i :: 0 <= i < |props| && props[i].1.None?
  }

  /** The element carries `xsi:nil="true"`. */
  predicate MarkedNil(e: Element) {
    Attr(e.attrs, XsiNamespace, "nil") == Some("true")
  }

  /** A Link element uses the xsi namespace exactly when one of its properties is nil. */
  lemma LinkToXmlNil(l: Link)
    ensures (exists i :: 0 <= i < |LinkToXml(l).children| && MarkedNil(LinkToXml(l).children[i])) <==> HasNil(l.properties)
  {
    var cs := LinkToXml(l).children;
    var n := |l.titles|;
    forall i | 0 <= i < |cs|
      ensures MarkedNil(cs[i]) <==> i >= n && l.properties[i - n].1.None?
    {
      if i < n {
        assert cs[i] == TitleNode(l.titles[i].0, l.titles[i].1);
      } else {
        var p := l.properties[i - n];
        assert cs[i] == PropertyNode(p.0, p.1);
        if p.1.None? {
          assert cs[i].attrs[1] == Attribute(XsiNamespace, "nil", "true");
        }
      }
    }
    if HasNil(l.properties) {
      var j :| 0 <= j < |l.properties| && l.properties[j].1.None?;
      assert MarkedNil(cs[n + j]);
    }
  }

  /** The Title children, one per title in order, as the toXml loops add them. */
  method BuildTitleNodes(titles: OrderedMap<string>) returns (children: seq<Element>)
    ensures children == TitleNodes(titles)
  {
    children := [];
    for i := 0 to |titles|
      invariant children == TitleNodes(titles[..i])
    {
      var (lang, title) := titles[i];
      var titleAttrs: seq<Attribute> := [];
      if lang != TitleLangDefault {
        titleAttrs := [Attribute(XmlNamespace, "lang", lang)];
      }
      assert titles[..i + 1] == titles[..i] + [(lang, title)];
      children := children + [Element("Title", titleAttrs, title, [])];
    }
    assert titles[..|titles|] == titles;
  }

  /**
   * The Property children, one per property in order, as the toXml loops add them, and whether
   * an `xsi:nil` attribute was written.
   */
  method BuildPropertyNodes(props: PropertyMap) returns (children: seq<Element>, usesNil: bool)
    ensures children == PropertyNodes(props)
    ensures usesNil <==> HasNil(props)
  {
    children := [];
    usesNil := false;
    for i := 0 to |props|
      invariant children == PropertyNodes(props[..i])
      invariant usesNil <==> HasNil(props[..i])
    {
      var (key, value) := props[i];
      var propAttrs := [Attribute("", "type", key)];
      if value.None? {
        propAttrs := propAttrs + [Attribute(XsiNamespace, "nil", "true")];
        usesNil := true;
      }
      assert props[..i + 1] == props[..i] + [(key, value)];
      assert Element("Property", propAttrs, value.GetOr(""), []) == PropertyNode(key, value);
      children := children + [Element("Property", propAttrs, value.GetOr(""), [])];
      assert HasNil(props[..i + 1]) <==> HasNil(props[..i]) || value.None? by {
        assert props[..i + 1][i] == (key, value);
        assert forall j :: 0 <= j < i ==> props[..i + 1][j] == props[..i][j];
      }
    }
    assert props[..|props|] == props;
  }

  /**
   * Builds a Link element step by step, as both LinkElement::toXml and General::toXml do, and
   * reports whether an `xsi:nil` attribute was written.
   */
  method BuildLinkNode(l: Link) returns (node: Element, usesNil: bool)
    ensures node == LinkToXml(l)
    ensures usesNil <==> HasNil(l.properties)
  {
    var attrs: seq<Attribute> := [];
    if l.rel.Some? {
      attrs := attrs + [Attribute("", "rel", l.rel.value)];
    }
    if l.mediaType.Some? {
      attrs := attrs + [Attribute("", "type", l.mediaType.value)];
    }
    if l.href.Some? {
      attrs := attrs + [Attribute("", "href", l.href.value)];
    }
    if l.template.Some? {
      attrs := attrs + [Attribute("", "template", l.template.value)];
    }
    var titleNodes := BuildTitleNodes(l.titles);
    var propertyNodes;
    propertyNodes, usesNil := BuildPropertyNodes(l.properties);
    node := Element("Link", attrs, "", titleNodes + propertyNodes);
  }

  // ---------------------------------------------------------------------------------------
  // The mutable object

  class LinkElement {
    var rel: Option<string>
    var mediaType: Option<string>
    var href: Option<string>
    var template: Option<string>
    var titles: OrderedMap<string>
    var properties: PropertyMap

    /** The link the fields hold. */
    function Value(): Link
      reads this
    {
      Link(rel, mediaType, href, template, titles, properties)
    }

    ghost predicate Valid()
      reads this
    {
      ValidLink(Value())
    }

    constructor (rel: Option<string> := None, href: Option<string> := None, mediaType: Option<string> := None, isTemplate: bool := false)
      ensures Valid()
      ensures Value() == NewLink(rel, href, mediaType, isTemplate)
    {
      this.rel := rel;
      if isTemplate {
        this.href := None;
        this.template := href;
      } else {
        this.href := href;
        this.template := None;
      }
      this.mediaType := mediaType;
      this.titles := [];
      this.properties := [];
    }

    function GetTitle(lang: Option<string> := None): Option<string>
      reads this
    {
      TitleOf(titles, lang)
    }

    function GetProperty(key: string): Option<string>
      reads this
    {
      PropertyValue(properties, key)
    }

    method SetTitle(title: string, lang: Option<string> := None)
      requires Valid()
      modifies this
      ensures Valid()
      ensures Value() == old(Value()).(titles := Put(old(titles), TitleKey(lang), title))
      ensures GetTitle(if IsEmptyOrNull(lang) then None else lang) == Some(title)
    {
      var key := if IsEmptyOrNull(lang) then TitleLangDefault else lang.value;
      PutTitleValid(titles, key, title);
      SetTitleThenGet(titles, title, lang);
      titles := Put(titles, key, title);
    }

    method SetProperty(key: string, value: Option<string>)
      requires Valid()
      modifies this
      ensures Valid()
      ensures Value() == old(Value()).(properties := Put(old(properties), key, value))
      ensures properties == old(properties) || HasKey(old(properties), key) || properties == old(properties) + [(key, value)]
    {
      properties := Put(properties, key, value);
    }

    /** setProperties: setProperty for each pair in turn. */
    method SetProperties(entries: PropertyMap)
      requires Valid()
      modifies this
      ensures Valid()
      ensures Value() == old(Value()).(properties := PutAll(old(properties), entries))
    {
      for i := 0 to |entries|
        invariant Valid()
        invariant Value() == old(Value()).(properties := PutAll(old(properties), entries[..i]))
      {
        PutAllStep(old(properties), entries, i);
        SetProperty(entries[i].0, entries[i].1);
      }
      assert entries[..|entries|] == entries;
    }

    method ToArray() returns (node: Json)
      ensures node == LinkToArray(Value())
    {
      ghost var fs := LinkFields(Value());
      var link: seq<(string, Json)> := [];
      if rel.Some? {
        link := link + [("rel", JString(rel.value))];
      }
      assert link == Fields(fs[..1]);
      if mediaType.Some? {
        link := link + [("type", JString(mediaType.value))];
      }
      assert link == Fields(fs[..2]) by {
        assert fs[..2][..1] == fs[..1];
      }
      if href.Some? {
        link := link + [("href", JString(href.value))];
      }
      assert link == Fields(fs[..3]) by {
        assert fs[..3][..2] == fs[..2];
      }
      if template.Some? {
        link := link + [("template", JString(template.value))];
      }
      assert link == Fields(fs[..4]) by {
        assert fs[..4][..3] == fs[..3];
      }
      if titles != [] {
        link := link + [("titles", TitlesJson(titles))];
      }
      assert link == Fields(fs[..5]) by {
        assert fs[..5][..4] == fs[..4];
      }
      if properties != [] {
        link := link + [("properties", PropertiesJson(properties))];
      }
      assert link == Fields(fs) by {
        assert fs[..5] == fs[..|fs| - 1];
      }
      node := JObject(link);
    }

    method ToXml() returns (node: Element)
      ensures node == LinkToXml(Value())
    {
      var usesNil;
      node, usesNil := BuildLinkNode(Value());
    }

    static method FromArray(members: seq<(string, Json)>) returns (link: LinkElement)
      ensures fresh(link)
      ensures link.Valid()
      ensures link.Value() == LinkFromArray(members)
    {
      link := new LinkElement();
      link.SetFromArray(members);
    }

    method SetFromArray(members: seq<(string, Json)>)
      requires Valid()
      modifies this
      ensures Valid()
      ensures Value() == ApplyArray(old(Value()), members)
    {
      ghost var start := Value();
      rel := Override(members, "rel", rel);
      mediaType := Override(members, "type", mediaType);
      href := Override(members, "href", href);
      template := Override(members, "template", template);
      var t := IssetMember(members, "titles");
      if t.Some? {
        titles := [];
        SetTitlesFromJson(t.value);
      }
      assert Value() == ApplyArray(start, members).(properties := start.properties);
      var p := IssetMember(members, "properties");
      if p.Some? {
        properties := [];
        SetProperties(PropertyEntries(Members(p.value)));
      }
    }

    /** The titles loop of setFromArray, run on emptied titles: setTitle for each (language, title) pair. */
    method SetTitlesFromJson(j: Json)
      requires Valid() && titles == []
      modifies this
      ensures Valid()
      ensures Value() == old(Value()).(titles := TitlesFromJson(j))
    {
      var ms := Members(j);
      var entries := TitleEntries(ms);
      for i := 0 to |ms|
        invariant Valid()
        invariant Value() == old(Value()).(titles := PutAll([], entries[..i]))
      {
        PutAllStep([], entries, i);
        SetTitle(TextOf(ms[i].1), Some(ms[i].0));
      }
      assert entries[..|ms|] == entries;
    }
  }
}
