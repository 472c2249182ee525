/**
 * The dashboard's split of the aggregated list into its two sections,
 * "My Resources" (personal) and "Common Resources" (shared).
 */
module Dashboard {
  import opened Wrappers
  import opened FirestoreService

  /** `links.filter(link => !link.isShared)` for `shared == false`,
      `links.filter(link => link.isShared)` for `shared == true`. */
  function Section(links: seq<UserLink>, shared: bool): (r: seq<UserLink>)
    ensures |r| <= |links|
    ensures forall l :: l in r ==> l in links && l.isShared == shared
    ensures forall l :: l in links && l.isShared == shared ==> l in r
  {
    if links == [] then []
    else if links[0].isShared == shared then [links[0]] + Section(links[1..], shared)
    else Section(links[1..], shared)
  }

  /** The filter keeps every record with the tag as often as it occurs, and no other. */
  lemma {:induction false} SectionCounts(links: seq<UserLink>, shared: bool)
    ensures forall l :: multiset(Section(links, shared))[l] == if l.isShared == shared then multiset(links)[l] else 0
  {
    if links != [] {
      SectionCounts(links[1..], shared);
      assert links == [links[0]] + links[1..];
    }
  }

  /** Filtering a concatenation filters each part. */
  lemma {:induction false} SectionAppend(a: seq<UserLink>, b: seq<UserLink>, shared: bool)
    ensures Section(a + b, shared) == Section(a, shared) + Section(b, shared)
  {
    if a == [] {
      assert a + b == b;
    } else {
      assert (a + b)[1..] == a[1..] + b;
      SectionAppend(a[1..], b, shared);
    }
  }

  /** Records built with one tag all land in that tag's section. */
  lemma {:induction false} SectionOfRecords(entries: seq<Entry>, iconsDoc: Fetch<Option<IconMap>>, tag: bool, shared: bool)
    ensures Section(ToRecords(entries, iconsDoc, tag), shared) == if tag == shared then ToRecords(entries, iconsDoc, tag) else []
  {
    if entries != [] {
      SectionOfRecords(entries[1..], iconsDoc, tag, shared);
    }
  }

  /** The personal section is exactly the personal portion of `getUserLinks` and the
      shared section exactly `getSharedLinks`; both are empty when the listing fails. */
  lemma DashboardSections(listing: Fetch<seq<MemberDoc>>, sharedListing: Fetch<seq<MemberDoc>>,
                          iconsDoc: Fetch<Option<IconMap>>, email: string)
    ensures listing.Ok? ==>
      Section(UserLinks(listing, sharedListing, iconsDoc, email), false) == PersonalLinks(listing.value, iconsDoc, email) &&
      Section(UserLinks(listing, sharedListing, iconsDoc, email), true) == SharedLinks(sharedListing, iconsDoc)
    ensures listing.StoreError? ==>
      Section(UserLinks(listing, sharedListing, iconsDoc, email), false) == [] &&
      Section(UserLinks(listing, sharedListing, iconsDoc, email), true) == []
  {
    if listing.Ok? {
      var p := SelectedEntries(listing.value, ByEmail(email));
      var s := SharedEntries(sharedListing);
      SectionAppend(ToRecords(p, iconsDoc, false), ToRecords(s, iconsDoc, true), false);
      SectionAppend(ToRecords(p, iconsDoc, false), ToRecords(s, iconsDoc, true), true);
      SectionOfRecords(p, iconsDoc, false, false);
      SectionOfRecords(p, iconsDoc, false, true);
      SectionOfRecords(s, iconsDoc, true, false);
      SectionOfRecords(s, iconsDoc, true, true);
    }
  }
}
