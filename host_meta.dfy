/**
 * host-meta (RFC 6415): an XRD document whose LRDD links carry the URI template a WebFinger
 * client fills in. HostMeta extends General with getLrdd and addLrdd; here they act on the
 * General object (or its `Descriptor` value) they are called on, passed explicitly.
 */
module HostMetas {
  import opened Wrappers
  import opened Text
  import opened Links
  import opened Descriptors

  const LrddRel := "lrdd"

  /** A link getLrdd accepts: rel "lrdd" and the wanted type, both ignoring case, and a template. */
  predicate IsLrdd(l: Link, mediaType: string) {
    EqualsIgnoreCase(l.rel.GetOr(""), LrddRel) && EqualsIgnoreCase(l.mediaType.GetOr(""), mediaType) && l.template.Some?
  }

  /** The position of the first link getLrdd accepts. */
  function FirstLrddIndex(links: seq<Link>, mediaType: string): (r: Option<nat>)
    ensures r.None? <==> forall i :: 0 <= i < |links| ==> !IsLrdd(links[i], mediaType)
    ensures r.Some? ==> r.value < |links| && IsLrdd(links[r.value], mediaType)
    ensures r.Some? ==> forall j :: 0 <= j < r.value ==> !IsLrdd(links[j], mediaType)
  {
    if |links| == 0 then None
    else if IsLrdd(links[0], mediaType) then Some(0)
    else
      assert forall i :: 1 <= i < |links| ==> links[i] == links[1..][i - 1];
      match FirstLrddIndex(links[1..], mediaType)
      case None => None
      case Some(i) => Some(i + 1)
  }

  /** getLrdd: the template of the first accepted link, or "" (never null) when there is none. */
  function Lrdd(links: seq<Link>, mediaType: string): string {
    match FirstLrddIndex(links, mediaType)
    case None => ""
    case Some(i) => links[i].template.value
  }

  /** What getLrdd finds: "" when no link is accepted, else the template of an accepted link before which none is accepted. */
  lemma LrddSpec(links: seq<Link>, mediaType: string)
    ensures (forall i :: 0 <= i < |links| ==> !IsLrdd(links[i], mediaType)) ==> Lrdd(links, mediaType) == ""
    ensures (exists i :: 0 <= i < |links| && IsLrdd(links[i], mediaType)) ==>
      exists i :: 0 <= i < |links| && IsLrdd(links[i], mediaType) && Lrdd(links, mediaType) == links[i].template.value &&
        forall j :: 0 <= j < i ==> !IsLrdd(links[j], mediaType)
  {
    var r := FirstLrddIndex(links, mediaType);
    if r.Some? {
      assert IsLrdd(links[r.value], mediaType) && Lrdd(links, mediaType) == links[r.value].template.value;
    }
  }

  /** A link with another rel or type, or without a template, is passed over and the search goes on. */
  lemma LrddSkips(l: Link, links: seq<Link>, mediaType: string)
    ensures Lrdd([l] + links, mediaType) == if IsLrdd(l, mediaType) then l.template.value else Lrdd(links, mediaType)
  {
    var s := [l] + links;
    assert s[1..] == links;
  }

  /** The link addLrdd appends: rel "lrdd", the given type, and the given template in place of an href. */
  function LrddLink(template: string, mediaType: string): Link {
    NewLink(Some(LrddRel), Some(template), Some(mediaType), true)
  }

  /** A link appended to the list decides getLrdd only when no earlier link is accepted. */
  lemma {:induction false} LrddAppend(links: seq<Link>, l: Link, mediaType: string)
    ensures Lrdd(links + [l], mediaType) ==
      if FirstLrddIndex(links, mediaType).Some? then Lrdd(links, mediaType)
      else if IsLrdd(l, mediaType) then l.template.value else ""
    decreases |links|
  {
    if |links| == 0 {
      assert links + [l] == [l];
    } else {
      assert (links + [l])[1..] == links[1..] + [l];
      LrddAppend(links[1..], l, mediaType);
      LrddSkips(links[0], links[1..] + [l], mediaType);
      LrddSkips(links[0], links[1..], mediaType);
      assert links == [links[0]] + links[1..];
      assert links + [l] == [links[0]] + (links[1..] + [l]);
    }
  }

  /** After addLrdd(t, type) on a document with no accepted link, getLrdd(type) returns t. */
  lemma AddLrddThenGet(links: seq<Link>, template: string, mediaType: string)
    requires forall i :: 0 <= i < |links| ==> !IsLrdd(links[i], mediaType)
    ensures Lrdd(links + [LrddLink(template, mediaType)], mediaType) == template
  {
    LrddAppend(links, LrddLink(template, mediaType), mediaType);
    EqualsIgnoreCaseLetterwise(mediaType, mediaType);
  }

  /** getLrdd, with the search loop of the source; `mediaType` defaults to the XRD media type. */
  method GetLrdd(hostMeta: General, mediaType: string := XrdContentType) returns (template: string)
    ensures template == Lrdd(hostMeta.links, mediaType)
  {
    var links := hostMeta.links;
    for i := 0 to |links|
      invariant forall j :: 0 <= j < i ==> !IsLrdd(links[j], mediaType)
    {
      var link := links[i];
      if EqualsIgnoreCase(link.rel.GetOr(""), LrddRel) && EqualsIgnoreCase(link.mediaType.GetOr(""), mediaType) && link.template.Some? {
        return link.template.value;
      }
    }
    return "";
  }

  /** addLrdd: appends one LRDD link made by the LinkElement constructor; nothing else changes. */
  method AddLrdd(hostMeta: General, template: string, mediaType: string := XrdContentType)
    requires hostMeta.Valid()
    modifies hostMeta
    ensures hostMeta.Valid()
    ensures hostMeta.Value() == old(hostMeta.Value()).(links := old(hostMeta.links) + [LrddLink(template, mediaType)])
  {
    var link := new LinkElement(Some(LrddRel), Some(template), Some(mediaType), true);
    hostMeta.AddLink(LinkObject(link));
  }
}
