/** The RSS 2.0 document model (package rss): the typed tree that XML decoding
    fills in, the post-processing and validation passes run on it, the Atom
    `rel="self"` link lookup and synthesis, and the two-layout date fallback.

    XML decoding (`xml.Unmarshal`) and date layout matching (`time.Parse`) are
    library calls the model does not see into: they are parameters. */
module Rss {
  import opened Wrappers
  import opened GoLib

  newtype byte = x: int | 0 <= x < 256

  /** The XML namespace of Atom elements (RFC 4287). */
  const AtomNameSpaceURL: string := "http://www.w3.org/2005/Atom"

  /** The two date layouts of Go's time package that are tried, in this order. */
  const RFC1123: string := "Mon, 02 Jan 2006 15:04:05 MST"
  const RFC1123Z: string := "Mon, 02 Jan 2006 15:04:05 -0700"

  type URL = string
  type Email = string

  /** A decoded `time.Time`; the model never looks inside it. */
  datatype Instant = Instant(unixNanos: int, zoneOffsetSeconds: int)

  /** `xml.Name`: the namespace URL and the local name of an element. */
  datatype XmlName = XmlName(space: string, local: string)

  datatype Image = Image(url: URL, title: string, link: URL, width: int, height: int, description: string)

  datatype Cloud = Cloud(domain: string, port: int, path: string, registerProcedure: string, protocol: string)

  datatype Source = Source(url: URL, value: string)

  datatype Enclosure = Enclosure(url: URL, length: int, mediaType: string)

  datatype Category = Category(domain: string, value: string)

  /** `isPermaLink` is kept as the raw attribute text. */
  datatype Guid = Guid(isPermaLink: string, value: URL)

  datatype Description = Description(value: string)

  /** Either a plain RSS `<link>` (URL in `value`) or an `<atom:link>` (URL in
      `href`); only the namespace in `xmlName` tells them apart. */
  datatype Link = Link(
    xmlName: XmlName,
    href: URL,
    hrefLang: string,
    length: int,
    title: string,
    mediaType: string,
    rel: string,
    value: URL)

  datatype Item = Item(
    title: string,
    links: seq<Link>,
    description: Description,
    author: Email,
    category: seq<Category>,
    comments: URL,
    enclosure: Enclosure,
    guid: Guid,
    pubDate: Option<Instant>,
    source: Source)

  datatype Channel = Channel(
    title: string,
    links: seq<Link>,
    description: string,
    language: string,
    copyright: string,
    managingEditor: Email,
    webMaster: Email,
    pubDate: Option<Instant>,
    lastBuildDate: Option<Instant>,
    categories: seq<Category>,
    generator: string,
    docs: URL,
    cloud: Cloud,
    ttl: int,
    image: Image,
    rating: string,
    skipHours: seq<int>,
    skipDays: seq<string>,
    items: seq<Item>)

  datatype Document = Document(xmlName: XmlName, version: string, channel: Channel)

  datatype Error =
    | DecodeError(message: string)                    // from the XML decoder
    | DateParseError(message: string)                 // a `*time.ParseError`
    | TimeError(message: string)                      // any other error of `time.Parse`
    | UnsupportedVersion(version: string)             // `log.Fatalf` in Validate
    | MissingElement(container: string, name: string) // `log.Fatalf` in complainIfEmpty

  // ---------------------------------------------------------------------------
  // Dates

  /** What `time.Parse(layout, text)` reports. */
  datatype TimeParse =
    | Parsed(instant: Instant)
    | LayoutMismatch(message: string)   // the error is a `*time.ParseError`
    | OtherError(message: string)       // an error of any other type

  function TimeParseResult(p: TimeParse): Result<Instant, Error> {
    match p
    case Parsed(t) => Success(t)
    case LayoutMismatch(m) => Failure(DateParseError(m))
    case OtherError(m) => Failure(TimeError(m))
  }

  /** `DateTime.UnmarshalXML`: the element text, once trimmed, is parsed with
      the RFC 1123 layout (zone name); only when that fails with a layout
      mismatch is the RFC 1123 numeric-offset layout tried. `decoded` is the
      element text as the XML decoder returned it. */
  function UnmarshalDateTime(decoded: Result<string, Error>, parse: (string, string) -> TimeParse)
    : (r: Result<Instant, Error>)
    ensures decoded.Failure? ==> r == Failure(decoded.error)
    ensures decoded.Success? ==>
      var raw := TrimSpace(decoded.value);
      && (parse(RFC1123, raw).Parsed? ==> r == Success(parse(RFC1123, raw).instant))
      && (parse(RFC1123, raw).OtherError? ==> r == Failure(TimeError(parse(RFC1123, raw).message)))
      && (r.Success? ==>
            || parse(RFC1123, raw) == Parsed(r.value)
            || (parse(RFC1123, raw).LayoutMismatch? && parse(RFC1123Z, raw) == Parsed(r.value)))
      && (r.Failure? && parse(RFC1123, raw).LayoutMismatch? ==>
            r == TimeParseResult(parse(RFC1123Z, raw)))
  {
    match decoded
    case Failure(e) => Failure(e)
    case Success(text) =>
      var raw := TrimSpace(text);
      var first := parse(RFC1123, raw);
      if first.LayoutMismatch? then TimeParseResult(parse(RFC1123Z, raw))
      else TimeParseResult(first)
  }

  /** Surrounding white space never changes how a date decodes. */
  lemma UnmarshalDateTimeTrimmed(text: string, parse: (string, string) -> TimeParse)
    ensures UnmarshalDateTime(Success(TrimSpace(text)), parse) == UnmarshalDateTime(Success(text), parse)
  {
    TrimSpaceIdempotent(text);
  }

  // ---------------------------------------------------------------------------
  // The self link

  /** The Atom `rel="self"` link of RFC 4287 section 4.2.7.2. */
  predicate IsSelfLink(l: Link) {
    l.xmlName.space == AtomNameSpaceURL && l.rel == "self"
  }

  predicate HasSelfLink(links: seq<Link>) {
    exists i | 0 <= i < |links| :: IsSelfLink(links[i])
  }

  predicate NoSelfLinkBefore(links: seq<Link>, n: int)
    requires 0 <= n <= |links|
  {
    forall j | 0 <= j < n :: !IsSelfLink(links[j])
  }

  /** The href of the first self link, or "" when there is none. */
  function SelfLinkOf(links: seq<Link>): (r: URL)
    ensures !HasSelfLink(links) ==> r == ""
    ensures forall i | 0 <= i < |links| && IsSelfLink(links[i]) && NoSelfLinkBefore(links, i) ::
      r == links[i].href
  {
    if links == [] then ""
    else if IsSelfLink(links[0]) then links[0].href
    else
      var r := SelfLinkOf(links[1..]);
      assert forall i | 1 <= i < |links| :: links[1..][i - 1] == links[i];
      assert forall i | 1 <= i < |links| && NoSelfLinkBefore(links, i) ::
        NoSelfLinkBefore(links[1..], i - 1);
      r
  }

  /** `Document.SelfLink`: scans the channel links in order and returns the
      href of the first self link, or "" when no link is one. */
  method SelfLink(d: Document) returns (href: URL)
    ensures href == SelfLinkOf(d.channel.links)
  {
    var links := d.channel.links;
    for i := 0 to |links|
      invariant SelfLinkOf(links[i..]) == SelfLinkOf(links)
    {
      assert links[i..][1..] == links[i + 1..];
      if IsSelfLink(links[i]) {
        return links[i].href;
      }
    }
    href := "";
  }

  /** The link SetSelfLink synthesises for a feed fetched from `uri`; the
      fields the source leaves unset keep their zero values. */
  function SelfLinkTo(uri: string): Link {
    Link(XmlName(AtomNameSpaceURL, "link"), uri, "", 0, "", "application/rss+xml", "self", "")
  }

  /** `Document.SetSelfLink`: appends one Atom self link whose href is `uri`
      to the channel links; nothing else changes. */
  function SetSelfLink(d: Document, uri: string): (r: Document)
    ensures |r.channel.links| == |d.channel.links| + 1
    ensures r.channel.links[..|d.channel.links|] == d.channel.links
    ensures var l := r.channel.links[|d.channel.links|];
      IsSelfLink(l) && l.href == uri && l.xmlName.local == "link" && l.mediaType == "application/rss+xml"
    ensures r.channel.links[|d.channel.links|] == SelfLinkTo(uri)
    ensures r.(channel := r.channel.(links := d.channel.links)) == d
  {
    d.(channel := d.channel.(links := d.channel.links + [SelfLinkTo(uri)]))
  }

  lemma {:induction false} SelfLinkOfAppend(links: seq<Link>, l: Link)
    ensures SelfLinkOf(links + [l]) ==
      if HasSelfLink(links) then SelfLinkOf(links) else if IsSelfLink(l) then l.href else ""
  {
    if links != [] {
      assert (links + [l])[1..] == links[1..] + [l];
      if !IsSelfLink(links[0]) {
        SelfLinkOfAppend(links[1..], l);
        if HasSelfLink(links) {
          var i :| 0 <= i < |links| && IsSelfLink(links[i]);
          assert links[1..][i - 1] == links[i];
        }
        if HasSelfLink(links[1..]) {
          var i :| 0 <= i < |links| - 1 && IsSelfLink(links[1..][i]);
          assert links[i + 1] == links[1..][i];
        }
      }
    }
  }

  /** After SetSelfLink(u), the self link is `u` unless the channel already had
      a self link, in which case it is unchanged. */
  lemma SelfLinkAfterSet(d: Document, uri: string)
    ensures SelfLinkOf(SetSelfLink(d, uri).channel.links) ==
      if HasSelfLink(d.channel.links) then SelfLinkOf(d.channel.links) else uri
  {
    SelfLinkOfAppend(d.channel.links, SelfLinkTo(uri));
  }

  /** The self-link step of adding a feed: when SelfLink reports "", a self
      link to the URL the feed was fetched from is appended. */
  function EnsureSelfLink(d: Document, url: string): (r: Document)
    ensures d.channel.links <= r.channel.links && |r.channel.links| <= |d.channel.links| + 1
    ensures |r.channel.links| == |d.channel.links| + 1 <==> SelfLinkOf(d.channel.links) == ""
    ensures SelfLinkOf(d.channel.links) == "" ==> r.channel.links[|d.channel.links|] == SelfLinkTo(url)
  {
    if SelfLinkOf(d.channel.links) == "" then SetSelfLink(d, url) else d
  }

  /** EnsureSelfLink adds at most one link, never touches a document that
      already names its self URL, and makes `url` the self link when there
      was none. When the first self link has an empty href, that one stays
      the reported self link and the appended link is never reported. */
  lemma EnsureSelfLinkResolves(d: Document, url: string)
    ensures var r := EnsureSelfLink(d, url);
      && r.(channel := r.channel.(links := d.channel.links)) == d
      && d.channel.links <= r.channel.links
      && |r.channel.links| <= |d.channel.links| + 1
      && (SelfLinkOf(d.channel.links) != "" ==> r == d)
      && (!HasSelfLink(d.channel.links) ==> SelfLinkOf(r.channel.links) == url)
      && (HasSelfLink(d.channel.links) ==> SelfLinkOf(r.channel.links) == SelfLinkOf(d.channel.links))
  {
    if SelfLinkOf(d.channel.links) == "" {
      SelfLinkAfterSet(d, url);
    }
  }

  /** A channel whose only self link has an empty href gets a second self link,
      and its self URL is still "": a non-empty `url` does not guarantee a
      non-empty self link. */
  lemma EmptySelfHrefIsNotReplaced()
    ensures var d := DocumentWithLinks([Link(XmlName(AtomNameSpaceURL, "link"), "", "", 0, "", "", "self", "")]);
      var r := EnsureSelfLink(d, "http://example.org/feed");
      |r.channel.links| == 2 && SelfLinkOf(r.channel.links) == ""
  {
    var d := DocumentWithLinks([Link(XmlName(AtomNameSpaceURL, "link"), "", "", 0, "", "", "self", "")]);
    SelfLinkAfterSet(d, "http://example.org/feed");
  }

  /** A 2.0 document whose channel has only the given links. */
  function DocumentWithLinks(links: seq<Link>): Document {
    Document(XmlName("", "rss"), "2.0",
      Channel("t", links, "d", "", "", "", "", None, None, [], "", "",
        Cloud("", 0, "", "", ""), 0, Image("", "", "", 0, 0, ""), "", [], [], []))
  }

  // ---------------------------------------------------------------------------
  // Post-processing

  /** The guid rule: an `isPermaLink` that strconv.ParseBool rejects (absent
      included, since absent decodes as "") becomes "true"; an accepted one is
      kept verbatim. */
  function NormalizeGuid(item: Item): (r: Item)
    ensures ParseBool(r.guid.isPermaLink).Some?
    ensures ParseBool(item.guid.isPermaLink).Some? ==> r == item
    ensures ParseBool(item.guid.isPermaLink).None? ==> r.guid.isPermaLink == "true"
    ensures r == item.(guid := item.guid.(isPermaLink := r.guid.isPermaLink))
  {
    if ParseBool(item.guid.isPermaLink).None? then item.(guid := item.guid.(isPermaLink := "true"))
    else item
  }

  /** The items with the guid rule applied to each, in the same order. */
  function NormalizeItems(items: seq<Item>): (r: seq<Item>)
    ensures |r| == |items|
    ensures forall i | 0 <= i < |items| :: r[i] == NormalizeGuid(items[i])
  {
    if items == [] then [] else [NormalizeGuid(items[0])] + NormalizeItems(items[1..])
  }

  /** The document Postprocess leaves behind: the same document, item for
      item, with the guid rule applied. */
  function Postprocessed(d: Document): (r: Document)
    ensures |r.channel.items| == |d.channel.items|
    ensures forall i | 0 <= i < |r.channel.items| :: r.channel.items[i] == NormalizeGuid(d.channel.items[i])
    ensures r.(channel := r.channel.(items := d.channel.items)) == d
  {
    d.(channel := d.channel.(items := NormalizeItems(d.channel.items)))
  }

  /** `Document.Postprocess`: one pass over the items, in place, applying the
      guid rule to each. */
  method Postprocess(d: Document) returns (r: Document)
    ensures r == Postprocessed(d)
  {
    var items := d.channel.items;
    for i := 0 to |items|
      invariant |items| == |d.channel.items|
      invariant forall k | 0 <= k < i :: items[k] == NormalizeGuid(d.channel.items[k])
      invariant forall k | i <= k < |items| :: items[k] == d.channel.items[k]
    {
      if ParseBool(items[i].guid.isPermaLink).None? {
        items := items[i := items[i].(guid := items[i].guid.(isPermaLink := "true"))];
      }
    }
    r := d.(channel := d.channel.(items := items));
  }

  /** Every `isPermaLink` is a boolean after post-processing, and running it
      again changes nothing, since "true" is one. */
  lemma PostprocessedIdempotent(d: Document)
    ensures forall i | 0 <= i < |Postprocessed(d).channel.items| ::
      ParseBool(Postprocessed(d).channel.items[i].guid.isPermaLink).Some?
    ensures Postprocessed(Postprocessed(d)) == Postprocessed(d)
  {
    var p := Postprocessed(d);
    var q := Postprocessed(p);
    assert q.channel.items == p.channel.items;
    assert q == p.(channel := p.channel.(items := q.channel.items));
  }

  // ---------------------------------------------------------------------------
  // Validation

  /** `complainIfEmpty`: a required element whose text is blank after
      trimming is an error naming the element and its container. */
  function ComplainIfEmpty(value: string, name: string, containerName: string): (r: Outcome<Error>)
    ensures r.Pass? <==> !AllSpace(value)
    ensures r.Fail? ==> r.error == MissingElement(containerName, name)
  {
    if TrimSpace(value) == "" then Fail(MissingElement(containerName, name)) else Pass
  }

  /** `Document.Validate`: the version must be "2.0", then the channel
      description and then the channel title must not be blank. Items are not
      checked. The first violation found is reported. */
  function Validate(d: Document): (r: Outcome<Error>)
    ensures r.Pass? <==>
      d.version == "2.0" && !AllSpace(d.channel.description) && !AllSpace(d.channel.title)
    ensures d.version != "2.0" ==> r == Fail(UnsupportedVersion(d.version))
    ensures d.version == "2.0" && AllSpace(d.channel.description) ==>
      r == Fail(MissingElement("channel", "description"))
    ensures d.version == "2.0" && !AllSpace(d.channel.description) && AllSpace(d.channel.title) ==>
      r == Fail(MissingElement("channel", "title"))
  {
    if d.version != "2.0" then Fail(UnsupportedVersion(d.version))
    else
      var description := ComplainIfEmpty(d.channel.description, "description", "channel");
      if description.Fail? then description
      else ComplainIfEmpty(d.channel.title, "title", "channel")
  }

  /** A document NewDocument can hand out. */
  predicate IsReady(d: Document) {
    && Validate(d).Pass?
    && forall i | 0 <= i < |d.channel.items| :: ParseBool(d.channel.items[i].guid.isPermaLink).Some?
  }

  // ---------------------------------------------------------------------------
  // Decoding a whole document

  /** `NewDocument`: decode, post-process, validate. A decoding error is
      returned as is; a validation failure (which the source turns into a
      fatal log) is returned as an error and no document is produced. */
  method NewDocument(raw: seq<byte>, unmarshal: seq<byte> -> Result<Document, Error>)
    returns (r: Result<Document, Error>)
    ensures unmarshal(raw).Failure? ==> r == Failure(unmarshal(raw).error)
    ensures unmarshal(raw).Success? ==>
      var decoded := unmarshal(raw).value;
      && (r.Success? <==> Validate(decoded).Pass?)
      && (r.Success? ==> r.value == Postprocessed(decoded))
      && (r.Failure? ==> Validate(decoded) == Fail(r.error))
    ensures r.Success? ==> IsReady(r.value)
  {
    var decoded := unmarshal(raw);
    if decoded.Failure? {
      return Failure(decoded.error);
    }
    var d := Postprocess(decoded.value);
    PostprocessedIdempotent(decoded.value);
    var valid := Validate(d);
    if valid.Fail? {
      return Failure(valid.error);
    }
    r := Success(d);
  }
}
