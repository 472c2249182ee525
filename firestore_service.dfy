/**
 * The link-aggregation service of the membership portal: admin check, icon lookup,
 * profile resolution, shared links and the aggregated per-user link list.
 *
 * Every read from the document store is a parameter of type `Fetch<...>`: the member
 * listing (`members` collection, in listing order), the `admin/administrators`
 * document and the `admin/icons` document. Each `try { ... } catch` of the service
 * becomes a case on `StoreError`.
 */
module FirestoreService {
  import opened Wrappers

  /** One `[title, url]` pair of a links map, as `Object.entries` yields it. */
  datatype Entry = Entry(title: string, url: string)

  /** A document of the `members` collection: its document id and its fields.
      `links` is `None` when the field is absent or null. */
  datatype MemberDoc = MemberDoc(id: string, displayName: string, email: string, links: Option<seq<Entry>>)

  /** The `administrators` field of `admin/administrators`: an array of emails, or any non-array value. */
  datatype AdminField = AdminArray(emails: seq<string>) | NotAnArray

  /** The fields of `admin/icons`: link title to icon name. */
  type IconMap = map<string, string>

  /** One link as the dashboard shows it. */
  datatype UserLink = UserLink(id: string, title: string, url: string, icon: Option<string>, isShared: bool)

  /** A member's profile; `links` defaults to the empty map. */
  datatype UserProfile = UserProfile(displayName: string, email: string, links: seq<Entry>)

  /** Document id of the member that holds the links shared with everyone. */
  const SHARED_USER: string := "Wassociates"

  /** Prefix of the id of every shared link. */
  const SHARED_PREFIX: string := "shared-"

  /** Titles are the keys of a links map, so no title occurs twice. */
  predicate DistinctTitles(entries: seq<Entry>) {
    forall i, j :: 0 <= i < j < |entries| ==> entries[i].title != entries[j].title
  }

  // ---------------------------------------------------------------------------
  // Admin and icon lookups (pure)
  // ---------------------------------------------------------------------------

  /** `isUserAdmin`: fails closed. A store error, a missing document or a
      non-array `administrators` field all give `false`. */
  function IsUserAdmin(adminDoc: Fetch<Option<AdminField>>, email: string): (r: bool)
    ensures r <==> exists emails :: adminDoc == Ok(Some(AdminArray(emails))) && email in emails
    ensures adminDoc.StoreError? || adminDoc == Ok(None) || adminDoc == Ok(Some(NotAnArray)) ==> !r
  {
    match adminDoc
    case StoreError => false
    case Ok(None) => false
    case Ok(Some(NotAnArray)) => false
    case Ok(Some(AdminArray(emails))) => email in emails
  }

  /** `getLinkIcon`, reading only the icon document's own fields. A falsy value
      (the empty string) counts as no icon, and a store error gives no icon. */
  function GetLinkIcon(iconsDoc: Fetch<Option<IconMap>>, title: string): (r: Option<string>)
    ensures r.Some? <==>
      iconsDoc.Ok? && iconsDoc.value.Some? && title in iconsDoc.value.value && iconsDoc.value.value[title] != ""
    ensures r.Some? ==> r.value == iconsDoc.value.value[title]
  {
    match iconsDoc
    case Ok(Some(icons)) => if title in icons && icons[title] != "" then Some(icons[title]) else None
    case _ => None
  }

  /** Names that every plain JavaScript object inherits from `Object.prototype`;
      each of them reads as a truthy inherited value on an object that lacks it
      (a function, or `Object.prototype` itself for `__proto__`). */
  const ObjectPrototypeMembers: set<string> := {
    "__proto__", "constructor", "hasOwnProperty", "isPrototypeOf", "propertyIsEnumerable",
    "toLocaleString", "toString", "valueOf",
    "__defineGetter__", "__defineSetter__", "__lookupGetter__", "__lookupSetter__"
  }

  /** What `iconsData[title] || null` can yield: an icon name stored in the
      document, or a member inherited from `Object.prototype`. */
  datatype IconValue = IconName(name: string) | InheritedMember(member: string)

  /** `getLinkIcon` as written: the bracket lookup also finds inherited members. */
  function GetLinkIconAsWritten(iconsDoc: Fetch<Option<IconMap>>, title: string): (r: Option<IconValue>)
    ensures title !in ObjectPrototypeMembers ==>
      r == (if GetLinkIcon(iconsDoc, title).Some? then Some(IconName(GetLinkIcon(iconsDoc, title).value)) else None)
    ensures r.Some? && r.value.InheritedMember? ==>
      title in ObjectPrototypeMembers && GetLinkIcon(iconsDoc, title).None?
    ensures iconsDoc.Ok? && iconsDoc.value.Some? && title in ObjectPrototypeMembers && title !in iconsDoc.value.value ==>
      r == Some(InheritedMember(title))
    ensures iconsDoc.Ok? && iconsDoc.value.Some? && title in iconsDoc.value.value ==>
      r == (if iconsDoc.value.value[title] != "" then Some(IconName(iconsDoc.value.value[title])) else None)
    ensures !(iconsDoc.Ok? && iconsDoc.value.Some?) ==> r == None
  {
    match iconsDoc
    case Ok(Some(icons)) =>
      if title in icons then
        (if icons[title] != "" then Some(IconName(icons[title])) else None)
      else if title in ObjectPrototypeMembers then Some(InheritedMember(title))
      else None
    case _ => None
  }

  /** An icon document without a `toString` or `__proto__` field still yields an
      "icon" for those titles as written; the corrected lookup yields none. */
  lemma InheritedMemberLeaksAsIcon(iconsDoc: Fetch<Option<IconMap>>)
    requires iconsDoc == Ok(Some(map["Docs" := "file"]))
    ensures GetLinkIconAsWritten(iconsDoc, "toString") == Some(InheritedMember("toString"))
    ensures GetLinkIcon(iconsDoc, "toString") == None
    ensures GetLinkIconAsWritten(iconsDoc, "__proto__") == Some(InheritedMember("__proto__"))
    ensures GetLinkIcon(iconsDoc, "__proto__") == None
  {
    assert "toString" in ObjectPrototypeMembers && "__proto__" in ObjectPrototypeMembers;
    assert "toString" != "Docs" && "__proto__" != "Docs";
  }

  // ---------------------------------------------------------------------------
  // From a links map to link records (pure)
  // ---------------------------------------------------------------------------

  /** The record id: the title for a personal link, the prefixed title for a shared one. */
  function LinkId(title: string, shared: bool): (id: string)
    ensures shared ==> |id| == |SHARED_PREFIX| + |title| && id[..|SHARED_PREFIX|] == SHARED_PREFIX && id[|SHARED_PREFIX|..] == title
    ensures !shared ==> id == title
  {
    if shared then SHARED_PREFIX + title else title
  }

  /** The record built for one entry of a links map. */
  function MakeLink(e: Entry, iconsDoc: Fetch<Option<IconMap>>, shared: bool): UserLink {
    UserLink(LinkId(e.title, shared), e.title, e.url, GetLinkIcon(iconsDoc, e.title), shared)
  }

  /** `Object.entries(links).map(...)` awaited with `Promise.all`: one record per
      entry, in entry order. */
  function ToRecords(entries: seq<Entry>, iconsDoc: Fetch<Option<IconMap>>, shared: bool): (links: seq<UserLink>)
    ensures |links| == |entries|
    ensures forall i :: 0 <= i < |entries| ==> links[i] == MakeLink(entries[i], iconsDoc, shared)
  {
    if entries == [] then [] else [MakeLink(entries[0], iconsDoc, shared)] + ToRecords(entries[1..], iconsDoc, shared)
  }

  /** `memberData.links || {}`: an absent links field reads as the empty map. */
  function LinksOrEmpty(links: Option<seq<Entry>>): seq<Entry> {
    match links
    case None => []
    case Some(entries) => entries
  }

  // ---------------------------------------------------------------------------
  // The scan of the member listing
  // ---------------------------------------------------------------------------

  /** What a scan looks for: a document id, or an `email` field. */
  datatype DocKey = ById(id: string) | ByEmail(email: string)

  predicate Selects(key: DocKey, d: MemberDoc) {
    match key
    case ById(id) => d.id == id
    case ByEmail(email) => d.email == email
  }

  /** The index of the first document, in listing order, that the key selects. */
  function FirstMatch(docs: seq<MemberDoc>, key: DocKey): (k: Option<nat>)
    ensures k.Some? ==> k.value < |docs| && Selects(key, docs[k.value])
    ensures k.Some? ==> forall j :: 0 <= j < k.value ==> !Selects(key, docs[j])
    ensures k.None? ==> forall j :: 0 <= j < |docs| ==> !Selects(key, docs[j])
  {
    if docs == [] then None
    else if Selects(key, docs[0]) then Some(0)
    else
      match FirstMatch(docs[1..], key)
      case None => None
      case Some(k) => Some(k + 1)
  }

  /** The links of the first selected document; empty when there is none or it has no links. */
  function SelectedEntries(docs: seq<MemberDoc>, key: DocKey): seq<Entry> {
    match FirstMatch(docs, key)
    case None => []
    case Some(k) => LinksOrEmpty(docs[k].links)
  }

  /** The entries behind the shared links; empty when the listing fails. */
  function SharedEntries(listing: Fetch<seq<MemberDoc>>): seq<Entry> {
    match listing
    case StoreError => []
    case Ok(docs) => SelectedEntries(docs, ById(SHARED_USER))
  }

  /** What `getSharedLinks` returns. */
  function SharedLinks(listing: Fetch<seq<MemberDoc>>, iconsDoc: Fetch<Option<IconMap>>): seq<UserLink> {
    ToRecords(SharedEntries(listing), iconsDoc, true)
  }

  /** The personal portion of `getUserLinks`, from the first member whose email matches. */
  function PersonalLinks(docs: seq<MemberDoc>, iconsDoc: Fetch<Option<IconMap>>, email: string): seq<UserLink> {
    ToRecords(SelectedEntries(docs, ByEmail(email)), iconsDoc, false)
  }

  /** What `getUserLinks` returns: personal then shared, or nothing when its own listing fails.
      `sharedListing` is the separate listing that `getSharedLinks` reads. */
  function UserLinks(listing: Fetch<seq<MemberDoc>>, sharedListing: Fetch<seq<MemberDoc>>,
                     iconsDoc: Fetch<Option<IconMap>>, email: string): seq<UserLink> {
    match listing
    case StoreError => []
    case Ok(docs) => PersonalLinks(docs, iconsDoc, email) + SharedLinks(sharedListing, iconsDoc)
  }

  /** The profile built from one member document. */
  function ProfileOf(d: MemberDoc): UserProfile {
    UserProfile(d.displayName, d.email, LinksOrEmpty(d.links))
  }

  /** What `getUserProfile` returns. */
  function ResolvedProfile(listing: Fetch<seq<MemberDoc>>, email: string): Option<UserProfile> {
    match listing
    case StoreError => None
    case Ok(docs) =>
      match FirstMatch(docs, ByEmail(email))
      case None => None
      case Some(k) => Some(ProfileOf(docs[k]))
  }

  // ---------------------------------------------------------------------------
  // The operations, as the service runs them
  // ---------------------------------------------------------------------------

  /** `getSharedLinks`: scan for the document with id `SHARED_USER`, map its links,
      stop at the first such document; a listing failure gives `[]`. */
  method GetSharedLinks(listing: Fetch<seq<MemberDoc>>, iconsDoc: Fetch<Option<IconMap>>)
    returns (sharedLinks: seq<UserLink>)
    ensures sharedLinks == SharedLinks(listing, iconsDoc)
  {
    if listing.StoreError? {
      return [];
    }
    var docs := listing.value;
    sharedLinks := [];
    for i := 0 to |docs|
      invariant sharedLinks == []
      invariant forall j :: 0 <= j < i ==> docs[j].id != SHARED_USER
    {
      var memberData := docs[i];
      if memberData.id == SHARED_USER {
        if memberData.links.Some? {
          sharedLinks := ToRecords(memberData.links.value, iconsDoc, true);
        }
        break;
      }
    }
  }

  /** `getUserLinks`: scan for the first member whose email matches, map its links
      as personal records, then append the shared links; a failure of its own
      listing gives `[]`. */
  method GetUserLinks(listing: Fetch<seq<MemberDoc>>, sharedListing: Fetch<seq<MemberDoc>>,
                      iconsDoc: Fetch<Option<IconMap>>, email: string)
    returns (links: seq<UserLink>)
    ensures links == UserLinks(listing, sharedListing, iconsDoc, email)
  {
    if listing.StoreError? {
      return [];
    }
    var docs := listing.value;
    var userLinks: seq<UserLink> := [];
    for i := 0 to |docs|
      invariant userLinks == []
      invariant forall j :: 0 <= j < i ==> docs[j].email != email
    {
      var memberData := docs[i];
      if memberData.email == email {
        if memberData.links.Some? {
          userLinks := ToRecords(memberData.links.value, iconsDoc, false);
        }
        break;
      }
    }
    var sharedLinks := GetSharedLinks(sharedListing, iconsDoc);
    links := userLinks + sharedLinks;
  }

  /** `getUserProfile`: the first member whose email matches, with links defaulting
      to the empty map; `None` (null) when nobody matches or the listing fails. */
  method GetUserProfile(listing: Fetch<seq<MemberDoc>>, email: string) returns (profile: Option<UserProfile>)
    ensures profile == ResolvedProfile(listing, email)
  {
    if listing.StoreError? {
      return None;
    }
    var docs := listing.value;
    for i := 0 to |docs|
      invariant forall j :: 0 <= j < i ==> docs[j].email != email
    {
      var memberData := docs[i];
      if memberData.email == email {
        return Some(UserProfile(memberData.displayName, memberData.email, LinksOrEmpty(memberData.links)));
      }
    }
    return None;
  }
}
