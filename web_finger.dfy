/**
 * WebFinger (RFC 7033): an XRD/JRD document about an account, read through accessors that look
 * at the first link of a relation. WebFinger extends General; its accessors are functions of
 * the document they are called on.
 */
module WebFingers {
  import opened Wrappers
  import opened Links
  import opened Descriptors

  const RelProfilePage := "http://webfinger.net/rel/profile-page"

  /** getLinkHref: the href of the first link whose rel matches, "" when there is none or it has no href. */
  function LinkHref(d: Descriptor, rel: string): (r: string)
    ensures (forall i :: 0 <= i < |d.links| ==> !RelMatches(d.links[i], rel)) ==> r == ""
    ensures r != "" ==> exists i :: 0 <= i < |d.links| && RelMatches(d.links[i], rel) && d.links[i].href == Some(r) &&
                                   (forall j :: 0 <= j < i ==> !RelMatches(d.links[j], rel))
    ensures forall i :: 0 <= i < |d.links| && RelMatches(d.links[i], rel) && (forall j :: 0 <= j < i ==> !RelMatches(d.links[j], rel)) ==>
                        r == d.links[i].href.GetOr("")
  {
    match FirstMatchIndex(d.links, rel)
    case None => ""
    case Some(i) =>
      var v := d.links[i].href;
      assert v.Some? ==> RelMatches(d.links[i], rel) && d.links[i].href == Some(v.value);
      v.GetOr("")
  }

  /** getLinkTemplate: the template of the first link whose rel matches, "" when there is none or it has no template. */
  function LinkTemplate(d: Descriptor, rel: string): (r: string)
    ensures (forall i :: 0 <= i < |d.links| ==> !RelMatches(d.links[i], rel)) ==> r == ""
    ensures r != "" ==> exists i :: 0 <= i < |d.links| && RelMatches(d.links[i], rel) && d.links[i].template == Some(r) &&
                                   (forall j :: 0 <= j < i ==> !RelMatches(d.links[j], rel))
    ensures forall i :: 0 <= i < |d.links| && RelMatches(d.links[i], rel) && (forall j :: 0 <= j < i ==> !RelMatches(d.links[j], rel)) ==>
                        r == d.links[i].template.GetOr("")
  {
    match FirstMatchIndex(d.links, rel)
    case None => ""
    case Some(i) =>
      var v := d.links[i].template;
      assert v.Some? ==> RelMatches(d.links[i], rel) && d.links[i].template == Some(v.value);
      v.GetOr("")
  }

  /** getProfilePageHref: getLinkHref of the profile-page relation, "" when no link has it. */
  function ProfilePageHref(d: Descriptor): (r: string)
    ensures (forall i :: 0 <= i < |d.links| ==> !RelMatches(d.links[i], RelProfilePage)) ==> r == ""
    ensures r != "" ==> exists i :: 0 <= i < |d.links| && RelMatches(d.links[i], RelProfilePage) && d.links[i].href == Some(r) &&
                                   (forall j :: 0 <= j < i ==> !RelMatches(d.links[j], RelProfilePage))
    ensures forall i :: 0 <= i < |d.links| && RelMatches(d.links[i], RelProfilePage) &&
                        (forall j :: 0 <= j < i ==> !RelMatches(d.links[j], RelProfilePage)) ==>
                        r == d.links[i].href.GetOr("")
  {
    LinkHref(d, RelProfilePage)
  }

  /** The accessors read the link findFirstLinkElement returns. */
  lemma AccessorsUseFirstLink(d: Descriptor, rel: string)
    ensures LinkHref(d, rel) == match FirstMatchingLink(d.links, rel) case None => "" case Some(l) => l.href.GetOr("")
    ensures LinkTemplate(d, rel) == match FirstMatchingLink(d.links, rel) case None => "" case Some(l) => l.template.GetOr("")
  {
  }

  /** Only the first matching link counts: when it has no href the result is "", whatever later links hold. */
  lemma FirstLinkWithoutHref(d: Descriptor, rel: string, k: nat)
    requires k < |d.links| && RelMatches(d.links[k], rel) && d.links[k].href.None?
    requires forall j :: 0 <= j < k ==> !RelMatches(d.links[j], rel)
    ensures LinkHref(d, rel) == ""
  {
    var r := FirstMatchIndex(d.links, rel);
    assert r == Some(k);
  }
}
