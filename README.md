# xrd-php in Dafny

This is a Dafny model of the core of `maruamyu/xrd-php`. That PHP library reads and writes
XRD 1.0 documents and their JSON form, JRD. It covers:

- the host-meta documents of RFC 6415;
- the WebFinger client of RFC 7033 section 4.

The model covers five parts of the library:

- **`LinkElement`** is one `<Link>`. It has a relation, a media type, either an href or a URI
  template, titles keyed by language, and properties keyed by type URI, where a property value
  may be nil.
- **`General`** is an XRD document. It has a subject, an expiry, aliases, properties and links.
  It also has link search by relation, and codecs to and from XRD (XML) and JRD (JSON).
- **`HostMeta`** finds the LRDD (Link-based Resource Descriptor Discovery) template, which is
  the URI template the client fills in, and adds LRDD links.
- **`WebFinger`** has accessors that read the first link of a relation.
- **`WebFingerClient`** resolves a resource URI to its WebFinger document:
  - It takes the host of the URI.
  - It finds the host's host-meta, over https first and then over http.
  - It fills the resource into the LRDD template. With no host-meta, it uses the well-known
    WebFinger URL instead.
  - It reads the XRD that comes back.
  - It memoises host-meta documents per host and WebFinger documents per resource.

How the model is laid out:

- A PHP string-keyed array is an `OrderedMap`: a sequence of (key, value) pairs with distinct
  keys. Storing an existing key replaces its value in place. Storing a new key appends it.
- The classes whose PHP methods update fields are Dafny classes:
  - `Links.LinkElement`
  - `Descriptors.General`
  - `WebFingerClients.WebFingerClient`

  Each has a `Value()` or `State()` function that reads its fields off as a value. Each method
  is proved against a function on that value.
- The codecs are pure functions between values and trees:
  - `Json` stands for the result of `json_decode`.
  - `Element` stands for the SimpleXML view of a document.
- `HostMeta` and `WebFinger` extend `General` in the source. Here their operations act on the
  `General` object, or on its `Descriptor` value, passed to them.
- The client's network and library calls are an `Environment` parameter:
  - `fetch` returns the response body of a GET, or "" when the request fails. An empty URL
    is handed to `file_get_contents`, which gives no body for it (`WebFingerClients.Download`).
  - `parseXml` stands for `simplexml_load_string`.
  - `parseUrl` stands for `parse_url`.
  - `encode` stands for `rawurlencode`.

  The pure `...Step` functions give each client method's result, the caches it leaves and the
  URLs it requests, in order.

In five places the code does something other than what a reader would expect. The model
follows the code:

- **The host of an `acct:` URI** is the text after the FIRST `@` of its path
  (`WebFingerClients.AcctHostTwoAts`).
- **An unparsable host-meta** makes the lookup throw. It is not treated as "no host-meta".
- **A null host-meta** is stored in the cache, but `isset` never finds it, so the next lookup
  fetches it again (`WebFingerClients.NullHostMetaRefetched`).
- **Links:**
  - `LinkElement::fromArray` may set both an href and a template.
  - `General::setFromArray` keeps only the template of such a link
    (`Descriptors.JrdLinkDropsHref`).
  - `addLink` ignores a value that is neither a `LinkElement` nor an array.
- **`getTitle("")` and `getTitle("0")`** find nothing, although `setTitle` files both under
  `"default"` (`Links.GetTitleEmptyLangMisses`).

A host-meta without an LRDD link gives the request URL "". There is no fallback to the
well-known URL in that case (`WebFingerClients.NoLrddNoUrl`), so the lookup throws
"webfinger fetch failed." (`WebFingerClients.NoLrddFetchFails`).

## Model

| member | source | states |
|---|---|---|
| Links.NewLink | src/Maruamyu/Core/Xrd/Data/LinkElement.php:53-66 | the new link is valid and keeps rel and type; the second argument becomes the template when `isTemplate` (href null), else the href (template null); titles and properties start empty |
| Links.LinkElement.constructor | src/Maruamyu/Core/Xrd/Data/LinkElement.php:53-66 | the fields hold `NewLink` of the arguments, with no titles and no properties |
| Links.TitleKey | src/Maruamyu/Core/Xrd/Data/LinkElement.php:161-167 | the key setTitle files under is never empty; it is "default" exactly when the language is null, "", "0" or "default"; otherwise it is the language |
| Links.TitleOf | src/Maruamyu/Core/Xrd/Data/LinkElement.php:145-155 | getTitle is null exactly when no title is filed under the language, with null meaning "default"; otherwise it is a title stored under that key |
| Links.PropertyValue | src/Maruamyu/Core/Xrd/Data/LinkElement.php:104-111 | getProperty is a value exactly when the key is set to a non-nil value, and then it is that value; it is null for a missing key or a nil value |
| Links.SetTitleThenGet | src/Maruamyu/Core/Xrd/Data/LinkElement.php:145-167 | a title stored by setTitle is found by getTitle under its language, or with no language when the language was empty |
| Links.GetTitleEmptyLangMisses | src/Maruamyu/Core/Xrd/Data/LinkElement.php:145-155 | getTitle("") and getTitle("0") find nothing in titles setTitle has built |
| Links.PutTitleValid | src/Maruamyu/Core/Xrd/Data/LinkElement.php:161-167 | storing a title under a non-empty language keeps languages distinct and non-empty |
| Links.LinkElement.SetTitle | src/Maruamyu/Core/Xrd/Data/LinkElement.php:161-167 | only the titles change; the title is stored under its key, and getTitle reads it back |
| Links.LinkElement.SetProperty | src/Maruamyu/Core/Xrd/Data/LinkElement.php:117-121 | only the properties change; the key's value is replaced in place, or the pair is appended |
| Links.LinkElement.SetProperties | src/Maruamyu/Core/Xrd/Data/LinkElement.php:134-139 | the properties become those of setProperty applied to each pair in order; keys stay distinct |
| Links.LinkToArrayShape | src/Maruamyu/Core/Xrd/Data/LinkElement.php:188-217 | toArray writes distinct keys and no null member; rel, type, href and template appear exactly when set, titles and properties exactly when not empty |
| Links.LinkToArrayMembers | src/Maruamyu/Core/Xrd/Data/LinkElement.php:188-217 | looking up each key of toArray's result finds the field it was written from |
| Links.StringFieldRead | src/Maruamyu/Core/Xrd/Data/LinkElement.php:188-205 | each of rel, type, href and template that toArray writes reads back as the same string, and an absent one as absent |
| Links.LinkElement.ToArray | src/Maruamyu/Core/Xrd/Data/LinkElement.php:188-217 | the array built step by step is the link's JSON array |
| Links.IssetMember | src/Maruamyu/Core/Xrd/Data/LinkElement.php:289-314 | `isset` is a present member that is not null; otherwise the key is missing or null |
| Links.TitlesFromJson | src/Maruamyu/Core/Xrd/Data/LinkElement.php:305-310 | the titles rebuilt from a JSON object have distinct, non-empty languages |
| Links.PropertiesFromJson | src/Maruamyu/Core/Xrd/Data/LinkElement.php:311-314 | the properties rebuilt from a JSON object have distinct keys |
| Links.ApplyArray | src/Maruamyu/Core/Xrd/Data/LinkElement.php:287-315 | for each of rel, type, href and template, a string in the array replaces the field and an absent one keeps it; titles and properties given (isset) are rebuilt from the array, otherwise kept; a valid link stays valid |
| Links.LinkElement.SetFromArray | src/Maruamyu/Core/Xrd/Data/LinkElement.php:287-315 | each field the array sets replaces the link's own and the rest are kept; titles and properties are emptied, then refilled by setTitle and setProperties |
| Links.LinkElement.SetTitlesFromJson | src/Maruamyu/Core/Xrd/Data/LinkElement.php:305-310 | the titles loop leaves the titles of setTitle applied to each pair in turn; nothing else changes |
| Links.LinkElement.FromArray | src/Maruamyu/Core/Xrd/Data/LinkElement.php:277-282 | a fresh, valid link holding setFromArray applied to an empty link |
| Links.TitlesRoundTrip | src/Maruamyu/Core/Xrd/Data/LinkElement.php:208-210 | valid titles written to JSON and read back by setTitle are unchanged |
| Links.PropertiesRoundTrip | src/Maruamyu/Core/Xrd/Data/LinkElement.php:212-214 | properties, nil values included, written to JSON and read back are unchanged |
| Links.LinkArrayStrings | src/Maruamyu/Core/Xrd/Data/LinkElement.php:188-303 | fromArray(toArray()) rebuilds rel, type, href and template |
| Links.LinkArrayCollections | src/Maruamyu/Core/Xrd/Data/LinkElement.php:208-314 | fromArray(toArray()) rebuilds the titles and the properties of a valid link |
| Links.LinkArrayRoundTrip | src/Maruamyu/Core/Xrd/Data/LinkElement.php:188-315 | fromArray(toArray()) rebuilds every valid link |
| Links.LinkToXmlNil | src/Maruamyu/Core/Xrd/Data/LinkElement.php:252-258 | a child of the Link element carries `xsi:nil` exactly when some property is nil |
| Links.BuildTitleNodes | src/Maruamyu/Core/Xrd/Data/LinkElement.php:245-250 | one Title child per title, in order, with `xml:lang` except for "default" |
| Links.BuildPropertyNodes | src/Maruamyu/Core/Xrd/Data/LinkElement.php:252-258 | one Property child per property, in order; the nil flag is raised exactly when some property is nil |
| Links.BuildLinkNode | src/Maruamyu/Core/Xrd/Data/General.php:282-310 | the Link element built step by step is the link's XML element, and the nil flag is raised exactly when it has a nil property |
| Links.LinkElement.ToXml | src/Maruamyu/Core/Xrd/Data/LinkElement.php:222-262 | the element built step by step is the link's XML element |
| Descriptors.NewDescriptor | src/Maruamyu/Core/Xrd/Data/General.php:92-99 | a new document has the subject and nothing else: no expiry, aliases, properties or links |
| Descriptors.General.constructor | src/Maruamyu/Core/Xrd/Data/General.php:92-99 | the fields hold `NewDescriptor(subject)` |
| Descriptors.General.SetSubject | src/Maruamyu/Core/Xrd/Data/General.php:120-123 | only the subject changes |
| Descriptors.General.SetExpires | src/Maruamyu/Core/Xrd/Data/General.php:136-139 | only the expiry changes |
| Descriptors.General.AddAlias | src/Maruamyu/Core/Xrd/Data/General.php:152-156 | the alias is appended; nothing else changes |
| Descriptors.General.SetProperty | src/Maruamyu/Core/Xrd/Data/General.php:175-179 | only the properties change; the key's value is replaced in place or appended; keys stay distinct |
| Descriptors.General.SetProperties | src/Maruamyu/Core/Xrd/Data/General.php:192-197 | the properties become those of setProperty applied to each pair in order |
| Descriptors.MatchingLinksSpec | src/Maruamyu/Core/Xrd/Data/General.php:211-220 | findLinkElements returns no more links than there are; a link is among them exactly when it is in the document and its rel matches, ignoring case |
| Descriptors.MatchingLinksAppend | src/Maruamyu/Core/Xrd/Data/General.php:211-220 | findLinkElements keeps document order: on two lists joined, it finds the links of the first, then those of the second |
| Descriptors.General.FindLinkElements | src/Maruamyu/Core/Xrd/Data/General.php:211-220 | the loop collects the matching links in document order |
| Descriptors.FirstMatchIndex | src/Maruamyu/Core/Xrd/Data/General.php:226-234 | none is found exactly when no rel matches; otherwise the index of a matching link with none matching before it |
| Descriptors.FirstMatchingLink | src/Maruamyu/Core/Xrd/Data/General.php:226-234 | null exactly when no link matches; otherwise the link at a matching position with no matching link before it |
| Descriptors.FirstMatchIndexAt | src/Maruamyu/Core/Xrd/Data/General.php:226-234 | a matching link with no matching link before it is the one found |
| Descriptors.FirstIsHeadOfMatching | src/Maruamyu/Core/Xrd/Data/General.php:211-234 | findFirstLinkElement is the first of findLinkElements, and null when that is empty |
| Descriptors.General.FindFirstLinkElement | src/Maruamyu/Core/Xrd/Data/General.php:226-234 | the loop returns the first matching link, or null |
| Descriptors.General.AddLink | src/Maruamyu/Core/Xrd/Data/General.php:240-248 | a LinkElement is appended as it is; an array is appended as LinkElement::fromArray reads it; any other value changes nothing |
| Descriptors.XsiDeclaredIffNil | src/Maruamyu/Core/Xrd/Data/General.php:259-313 | toXml declares the xsi namespace on the root exactly when some Property it writes, at the top level or in a link, is nil |
| Descriptors.General.ToXml | src/Maruamyu/Core/Xrd/Data/General.php:253-316 | the XRD element built step by step is the document's XML tree: Subject when not empty, Expires when set, then the Alias, Property and Link children in order |
| Descriptors.EncodeJson | src/Maruamyu/Core/Xrd/Data/General.php:321-354 | toJson is an object; it is empty (`{}`) exactly when the subject is "" and the document has no expiry, aliases, properties or links |
| Descriptors.EncodeJsonMembers | src/Maruamyu/Core/Xrd/Data/General.php:321-354 | looking up each key of toJson's result finds the field it was written from |
| Descriptors.General.ToJson | src/Maruamyu/Core/Xrd/Data/General.php:321-354 | the object built step by step is the document's JRD |
| Descriptors.General.LinkItems | src/Maruamyu/Core/Xrd/Data/General.php:341-347 | the links list holds each link's toArray, in order |
| Descriptors.PropertiesFromXml | src/Maruamyu/Core/Xrd/Data/General.php:492-512 | fails exactly when some Property has an empty or missing type, with "invalid XRD. (type is empty in Property)"; a success has distinct keys |
| Descriptors.PropertiesFromXmlGet | src/Maruamyu/Core/Xrd/Data/General.php:492-512 | each decoded key holds the value of the last Property of that type, nil when it says `xsi:nil="true"`; no other key is set |
| Descriptors.General.ParsePropertyNode | src/Maruamyu/Core/Xrd/Data/General.php:492-512 | the loop returns the decoded properties, or the empty-type error |
| Descriptors.TitlesFromXml | src/Maruamyu/Core/Xrd/Data/General.php:404-417 | the titles have distinct, non-empty languages, and each language holds the text of the last Title filed under it |
| Descriptors.XmlLangWins | src/Maruamyu/Core/Xrd/Data/General.php:406-415 | a Title with both `lang` and `xml:lang` is filed under its `xml:lang`, in either attribute order; a worked example of the rule that `TitlesFromXml`'s last-value clause states in general |
| Descriptors.General.SetTitlesFromXml | src/Maruamyu/Core/Xrd/Data/General.php:404-417 | the link's titles become those of setTitle applied to each Title in turn, with `xml:lang` winning over `lang`; nothing else changes |
| Descriptors.LinkFromXml | src/Maruamyu/Core/Xrd/Data/General.php:395-421 | fails exactly when one of its Property children has no type; otherwise the link is valid, has the rel and type attributes, the template attribute with href null when there is one, else the href attribute with template null, and the titles and properties read from its children |
| Descriptors.General.ParseLinkNode | src/Maruamyu/Core/Xrd/Data/General.php:395-421 | a Link element fails exactly when its properties fail, with the same error; otherwise a fresh, valid LinkElement holding the decoded link |
| Descriptors.LinksFromXml | src/Maruamyu/Core/Xrd/Data/General.php:392-423 | on success, link i is what Link element i decodes to, and each link is valid; it fails exactly when some Link element fails, always with the empty-type error |
| Descriptors.LinksFromXmlFailsAt | src/Maruamyu/Core/Xrd/Data/General.php:392-423 | the first Link element that fails decides the error |
| Descriptors.General.ParseLinkNodes | src/Maruamyu/Core/Xrd/Data/General.php:392-423 | the loop returns the decoded links, or the first error |
| Descriptors.General.ParseAliasNodes | src/Maruamyu/Core/Xrd/Data/General.php:379-384 | the aliases are the Alias texts, in order |
| Trees.FirstChild | src/Maruamyu/Core/Xrd/Data/General.php:370-376 | `$xml->Name` is null exactly when no child has the name, otherwise the first child that has it |
| Trees.FirstNamed | src/Maruamyu/Core/Xrd/Data/General.php:370-376 | the children filtered by name are empty exactly when none has the name, and start with the first that has it |
| Descriptors.SubjectOf | src/Maruamyu/Core/Xrd/Data/General.php:370 | the subject is the text of the first Subject child, "" when there is none |
| Descriptors.ExpiresOf | src/Maruamyu/Core/Xrd/Data/General.php:372-376 | the expiry is null exactly when no Expires child exists, otherwise the text of the first one |
| Descriptors.DecodeXml | src/Maruamyu/Core/Xrd/Data/General.php:360-424 | a root not named XRD fails with "invalid XRD."; otherwise it fails exactly when the Property children or the Link children fail, and then with the empty-type error; a success is well-formed and holds the first Subject's text, the first Expires' text, the Alias texts in order, the decoded Property children and the decoded Link children |
| Descriptors.General.SetFromXml | src/Maruamyu/Core/Xrd/Data/General.php:360-424 | fails exactly when the text is not XML ("invalid XML."), the root is not XRD ("invalid XRD.") or a Property has no type; otherwise the fields hold the decoded document |
| Descriptors.General.FromXml | src/Maruamyu/Core/Xrd/Data/General.php:69-77 | the same failures; otherwise a fresh, valid object holding the decoded document |
| Descriptors.XmlRoundTrip | src/Maruamyu/Core/Xrd/Data/General.php:253-424 | fromXml(toXml()) rebuilds every document whose properties all have a type and whose links do not carry both href and template |
| Descriptors.PropertyNodesRoundTrip | src/Maruamyu/Core/Xrd/Data/General.php:273-280 | the Property elements toXml writes parse back to the same properties |
| Descriptors.LinkXmlRoundTrip | src/Maruamyu/Core/Xrd/Data/General.php:282-310 | a Link element toXml writes decodes to the same link |
| Descriptors.UntypedPropertyNotReadBack | src/Maruamyu/Core/Xrd/Data/General.php:499-502 | a property with an empty type is written by toXml but rejected when read back |
| Descriptors.JrdLinkValid | src/Maruamyu/Core/Xrd/Data/General.php:466-483 | each link setFromArray decodes from JRD is valid |
| Descriptors.JrdLinkFromArray | src/Maruamyu/Core/Xrd/Data/General.php:466-483 | General reads a JRD link as LinkElement::fromArray does, except that a template drops the href |
| Descriptors.JrdLinkDropsHref | src/Maruamyu/Core/Xrd/Data/General.php:469-474 | a link holding both an href and a template loses its href on the way through JRD |
| Descriptors.JrdLinkRoundTrip | src/Maruamyu/Core/Xrd/Data/General.php:466-483 | a valid link without both href and template survives toArray and General's reading |
| Descriptors.DecodeArrayValid | src/Maruamyu/Core/Xrd/Data/General.php:442-486 | setFromArray leaves distinct property keys and valid links |
| Descriptors.DecodeArray | src/Maruamyu/Core/Xrd/Data/General.php:442-486 | a missing subject gives "", a string subject is kept; the expiry is the `expires` string; aliases, properties and links are empty unless set (isset), and then are the item texts in order, the properties setProperties builds, and one JRD link per item in order |
| Descriptors.DecodeJson | src/Maruamyu/Core/Xrd/Data/General.php:430-437 | null (not JSON) fails with "invalid JSON.", a string with the `array` type error, a list gives an empty document, and an object is read by setFromArray |
| Descriptors.General.ArrayLink | src/Maruamyu/Core/Xrd/Data/General.php:466-483 | one iteration of the links loop builds a fresh, valid link holding the decoded JRD link |
| Descriptors.General.SetFromArray | src/Maruamyu/Core/Xrd/Data/General.php:442-486 | the fields hold the document the JRD members describe, well-formed |
| Descriptors.General.FromJson | src/Maruamyu/Core/Xrd/Data/General.php:80-85 | fails exactly when the JSON is not valid ("invalid JSON.") or does not decode to an array; otherwise a fresh, valid object holding the decoded document |
| Descriptors.JsonRoundTrip | src/Maruamyu/Core/Xrd/Data/General.php:321-486 | fromJson(toJson()) rebuilds every well-formed document whose links do not carry both href and template |
| HostMetas.FirstLrddIndex | src/Maruamyu/Core/Xrd/Data/HostMeta.php:16-28 | the first link with rel "lrdd" and the wanted type, both ignoring case, and with a template; none exactly when no link is one |
| HostMetas.LrddSpec | src/Maruamyu/Core/Xrd/Data/HostMeta.php:16-28 | getLrdd is "" when no link is accepted; otherwise it is the template of an accepted link with none accepted before it |
| HostMetas.LrddSkips | src/Maruamyu/Core/Xrd/Data/HostMeta.php:18-26 | a link with another rel or type, or with no template, is passed over |
| HostMetas.LrddAppend | src/Maruamyu/Core/Xrd/Data/HostMeta.php:16-28 | an appended link decides getLrdd only when no earlier link is accepted |
| HostMetas.AddLrddThenGet | src/Maruamyu/Core/Xrd/Data/HostMeta.php:16-40 | after addLrdd(t, type) on a document with no accepted link, getLrdd(type) returns t |
| HostMetas.GetLrdd | src/Maruamyu/Core/Xrd/Data/HostMeta.php:16-28 | the search loop returns getLrdd's template, or "" |
| HostMetas.AddLrdd | src/Maruamyu/Core/Xrd/Data/HostMeta.php:36-40 | one link is appended, with rel "lrdd", the type and the template; nothing else changes |
| WebFingers.LinkHref | src/Maruamyu/Core/Xrd/Data/WebFinger.php:25-33 | "" when no rel matches; otherwise the href of the first matching link, or "" when it has none; a result other than "" is that href |
| WebFingers.LinkTemplate | src/Maruamyu/Core/Xrd/Data/WebFinger.php:40-48 | "" when no rel matches; otherwise the template of the first matching link, or "" when it has none; a result other than "" is that template |
| WebFingers.ProfilePageHref | src/Maruamyu/Core/Xrd/Data/WebFinger.php:10-18 | the result is getLinkHref of the profile-page relation: "" when no link has it; otherwise the href of the first such link, or "" when it has none; a result other than "" is that href |
| WebFingers.AccessorsUseFirstLink | src/Maruamyu/Core/Xrd/Data/WebFinger.php:25-48 | both accessors read the link findFirstLinkElement returns |
| WebFingers.FirstLinkWithoutHref | src/Maruamyu/Core/Xrd/Data/WebFinger.php:25-33 | when the first matching link has no href the result is "", whatever later links hold |
| WebFingerClients.HostMetaUrlParts | src/Maruamyu/Core/Xrd/WebFingerClient.php:135-139 | a host-meta URL is the scheme, "://", the host and "/.well-known/host-meta" |
| WebFingerClients.HostMetaUrlInjective | src/Maruamyu/Core/Xrd/WebFingerClient.php:135-139 | different hosts or schemes give different host-meta URLs |
| WebFingerClients.AcctHost | src/Maruamyu/Core/Xrd/WebFingerClient.php:160-172 | the host of an `acct` URI is the text after the first '@' of its path, and "" when there is no '@' |
| WebFingerClients.AcctHostExample | src/Maruamyu/Core/Xrd/WebFingerClient.php:160-172 | acct:mirai_iro@mstdn.jp is looked up on mstdn.jp |
| WebFingerClients.AcctHostTwoAts | src/Maruamyu/Core/Xrd/WebFingerClient.php:166 | a path with two '@' keeps the second one in the host |
| WebFingerClients.NoLrddNoUrl | src/Maruamyu/Core/Xrd/WebFingerClient.php:68-69 | with a host-meta but no LRDD link of the XRD type, the request URL is "" |
| WebFingerClients.LrddUrl | src/Maruamyu/Core/Xrd/WebFingerClient.php:68-69 | the LRDD template's `{uri}` is replaced by the encoded resource |
| WebFingerClients.FallbackUrl | src/Maruamyu/Core/Xrd/WebFingerClient.php:70-73 | without a host-meta the resource is looked up at the well-known WebFinger URL of its host, over https |
| WebFingerClients.Download | src/Maruamyu/Core/Xrd/WebFingerClient.php:145-154 | the body of a request is the response to its URL, and an empty URL gives no body |
| WebFingerClients.NoLrddFetchFails | src/Maruamyu/Core/Xrd/WebFingerClient.php:67-77 | with a host-meta but no LRDD link, fetch requests "" and throws "webfinger fetch failed.", and get caches nothing for the resource |
| WebFingerClients.ReadXrd | src/Maruamyu/Core/Xrd/WebFingerClient.php:78 | a response body reads as a document exactly when it parses as an XRD; a success is fromXml's well-formed document, and a failure is an UnexpectedValueException carrying fromXml's message |
| WebFingerClients.FetchHostMetaOrder | src/Maruamyu/Core/Xrd/WebFingerClient.php:111-128 | the https URL is requested first; the http URL is requested only after an empty https body; the result is null only when both bodies are empty |
| WebFingerClients.CachedHostMetaServed | src/Maruamyu/Core/Xrd/WebFingerClient.php:94-96 | a cached host-meta is served with no request and no state change |
| WebFingerClients.NullHostMetaRefetched | src/Maruamyu/Core/Xrd/WebFingerClient.php:94-100 | a null host-meta is stored, yet the next call requests the host-meta again |
| WebFingerClients.GetHostMetaFrame | src/Maruamyu/Core/Xrd/WebFingerClient.php:88-101 | getHostMeta changes only its host's entry in the host-meta cache and never the WebFinger cache |
| WebFingerClients.GetRejectsEmpty | src/Maruamyu/Core/Xrd/WebFingerClient.php:39-42 | get("") and get("0") throw "resource URI is empty." before any request or cache change |
| WebFingerClients.CachedWebFingerServed | src/Maruamyu/Core/Xrd/WebFingerClient.php:44-46 | a cached resource is returned with no request |
| WebFingerClients.GetStoresSuccess | src/Maruamyu/Core/Xrd/WebFingerClient.php:48-50 | for a new resource, a success is stored under it and a failure leaves the WebFinger cache as it was |
| WebFingerClients.FetchRequestsUrl | src/Maruamyu/Core/Xrd/WebFingerClient.php:61-79 | the last request of fetch is the URL built from the host-meta or the fallback, and an empty body throws "webfinger fetch failed." |
| WebFingerClients.WebFingerClient.constructor | src/Maruamyu/Core/Xrd/WebFingerClient.php:23-27 | both caches are empty and nothing has been requested |
| WebFingerClients.WebFingerClient.FetchXrd | src/Maruamyu/Core/Xrd/WebFingerClient.php:145-154 | one request of the URL; its body is returned, "" for an empty URL; the caches are unchanged |
| WebFingerClients.WebFingerClient.FetchHostMeta | src/Maruamyu/Core/Xrd/WebFingerClient.php:111-128 | result, caches and requests are those of the host-meta lookup described above |
| WebFingerClients.WebFingerClient.GetHostMeta | src/Maruamyu/Core/Xrd/WebFingerClient.php:88-101 | result, caches and requests are those of the cached host-meta lookup |
| WebFingerClients.WebFingerClient.Fetch | src/Maruamyu/Core/Xrd/WebFingerClient.php:61-79 | result, caches and requests are those of the WebFinger lookup: an empty host throws, then host-meta, request URL, request and XRD read |
| WebFingerClients.WebFingerClient.Get | src/Maruamyu/Core/Xrd/WebFingerClient.php:37-51 | result, caches and requests are those of the memoised lookup |

## Left out

- Network I/O. `fetchXrd`'s GET and its `Accept: application/xrd+xml` header are the
  `Environment.fetch` function; the model does not see connections, redirects or timeouts.
- XML and JSON text. Parsing and printing are left to `Environment.parseXml` and to `json_decode`.
  The codecs work on element and JSON trees. The XRD template text, the root namespace
  declaration and `asXML` output are not modelled. That includes `LinkElement::toXml` dropping
  the XML declaration line.
- `parse_url` and `rawurlencode` are the `Environment` functions `parseUrl` and `encode`.
- Date-times. `expires` is carried as its text. `DateTime` parsing and ATOM formatting are not
  modelled.
- Aliasing. `General` stores each link as a `Link` value. A `LinkElement` changed after
  `addLink` is not seen through the document.
- Inheritance. `HostMeta` and `WebFinger` extend `General` in the source. Here their operations
  are functions of, or methods on, the `General` object or its value. `static::fromXml` building
  a `HostMeta` or `WebFinger` instance therefore gives a `General` here.
- JSON numbers and booleans. `Json` has only null, strings, lists and objects, so a JRD
  holding numbers or booleans is not modelled.
- Non-string JSON values. Where the source stores a decoded value as it is, the model reads a
  string or nothing:
  - An alias that is not a string becomes "".
  - A property value that is not a string becomes nil.
  - A rel, type, href or template that is not a string is treated as absent.
  - A title that is not a string becomes "", so a title is never null.
- Lists in place of objects. A JSON list given as `titles` or `properties` is iterated by PHP
  with integer keys. The model reads it as empty, because only an object has members here.
- Duplicate object keys. `json_decode` never produces them, but the `Json` tree allows them,
  and a lookup then reads the first.
- Descriptors.DecodeJson: a decoded value that is a string gives a `TypeMismatch` error. In PHP
  this is the `TypeError` raised by the `array` type of `setFromArray`, whose message text is
  not modelled. A top-level list is read as an object with no members.
- Links.ApplyArray: a `properties` member that is a string is read as no properties. In PHP
  `setProperties(array $properties)` rejects it with a `TypeError`, so `fromArray` throws.
- Descriptors.JrdLink: the same string `properties` member of a JRD link is read as no
  properties, where `General::setFromArray` throws the `TypeError` of `setProperties`. A string
  `titles` member is not affected: PHP's `foreach` skips it, and the model reads no titles.
- WebFingerClients.Download: under PHP 8, `file_get_contents('')` throws a `ValueError`. The
  model follows PHP 7, which returns no body, so the lookup fails with "webfinger fetch failed.".
- `__toString` of both classes. It only returns `toXml()`.
- The field getters (`getSubject`, `getExpires`, `getAliases`, `getProperties`, `getLinks`,
  `getRel`, `getType`, `getHref`, `getTemplate`, `getTitles`, `getTitleLangs`). Each reads a
  field, and `getTitleLangs` the keys of the titles. Here these are the fields of `Value()`.
- `toXml`'s `RuntimeException` when its fixed template fails to parse cannot happen, and it is
  not modelled.
- Descriptors.General.SetFromXml: on failure the model does not say what the object holds. The
  source has by then overwritten the fields it has read.
- Descriptors.JsonRoundTrip: stated only for links without both href and template, because
  General keeps only the template of such a link (`Descriptors.JrdLinkDropsHref`).
- Descriptors.XmlRoundTrip: stated only for documents whose properties all have a type
  (`Descriptors.UntypedPropertyNotReadBack` shows the exception), and whose links do not carry
  both href and template.
- The example script that drives the client from the command line is not part of this model.
