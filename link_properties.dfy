/**
 * Properties of the link-aggregation service: first-match resolution, the
 * fallback values, the layout of the aggregated list, what the icon lookup can
 * and cannot change, and when record ids are unique.
 */
module LinkProperties {
  import opened Wrappers
  import opened FirestoreService

  /** `k` is the index of the first document, in listing order, that `key` selects. */
  predicate IsFirstMatch(docs: seq<MemberDoc>, key: DocKey, k: nat) {
    k < |docs| && Selects(key, docs[k]) && forall j :: 0 <= j < k ==> !Selects(key, docs[j])
  }

  /** Every links map in the listing has distinct titles, as the keys of an object do. */
  predicate WellFormedListing(docs: seq<MemberDoc>) {
    forall j :: 0 <= j < |docs| && docs[j].links.Some? ==> DistinctTitles(docs[j].links.value)
  }

  /** No two records of a list share an id. */
  predicate IdsDistinct(links: seq<UserLink>) {
    forall i, j :: 0 <= i < j < |links| ==> links[i].id != links[j].id
  }

  // ---------------------------------------------------------------------------
  // The scan
  // ---------------------------------------------------------------------------

  /** The scan result is the one and only first match. */
  lemma FirstMatchIsFirst(docs: seq<MemberDoc>, key: DocKey, k: nat)
    ensures FirstMatch(docs, key) == Some(k) <==> IsFirstMatch(docs, key, k)
  {
  }

  /** Documents after the first match are never looked at (the `break`). */
  lemma {:induction false} FirstMatchIgnoresLater(docs: seq<MemberDoc>, more: seq<MemberDoc>, key: DocKey)
    requires FirstMatch(docs, key).Some?
    ensures FirstMatch(docs + more, key) == FirstMatch(docs, key)
  {
    var k := FirstMatch(docs, key).value;
    assert (docs + more)[k] == docs[k];
    assert forall j :: 0 <= j < k ==> (docs + more)[j] == docs[j];
    FirstMatchIsFirst(docs + more, key, k);
  }

  /** Non-matching documents in front only shift the index of the match. */
  lemma {:induction false} FirstMatchSkipsNonMatching(skipped: seq<MemberDoc>, docs: seq<MemberDoc>, key: DocKey)
    requires forall j :: 0 <= j < |skipped| ==> !Selects(key, skipped[j])
    ensures FirstMatch(skipped + docs, key).None? <==> FirstMatch(docs, key).None?
    ensures FirstMatch(docs, key).Some? ==> FirstMatch(skipped + docs, key) == Some(|skipped| + FirstMatch(docs, key).value)
  {
    var all := skipped + docs;
    assert forall j :: 0 <= j < |docs| ==> all[|skipped| + j] == docs[j];
    if FirstMatch(docs, key).Some? {
      var k := FirstMatch(docs, key).value;
      forall j | 0 <= j < |skipped| + k ensures !Selects(key, all[j]) {
        if j >= |skipped| {
          assert all[j] == docs[j - |skipped|];
        }
      }
      FirstMatchIsFirst(all, key, |skipped| + k);
    }
  }

  // ---------------------------------------------------------------------------
  // getUserProfile
  // ---------------------------------------------------------------------------

  /** `getUserProfile` returns `null` exactly when the listing fails or no member
      has the email; otherwise it copies the first matching member, with an absent
      links field read as the empty map. */
  lemma ProfileIsFirstMatch(listing: Fetch<seq<MemberDoc>>, email: string)
    ensures ResolvedProfile(listing, email).None? <==>
      listing.StoreError? || forall j :: 0 <= j < |listing.value| ==> listing.value[j].email != email
    ensures ResolvedProfile(listing, email).Some? ==>
      listing.Ok? &&
      exists k: nat :: IsFirstMatch(listing.value, ByEmail(email), k) &&
        var p := ResolvedProfile(listing, email).value;
        p.displayName == listing.value[k].displayName && p.email == email &&
        p.links == (if listing.value[k].links.Some? then listing.value[k].links.value else [])
  {
    if listing.Ok? && FirstMatch(listing.value, ByEmail(email)).Some? {
      var k := FirstMatch(listing.value, ByEmail(email)).value;
      FirstMatchIsFirst(listing.value, ByEmail(email), k);
      assert IsFirstMatch(listing.value, ByEmail(email), k);
    }
  }

  // ---------------------------------------------------------------------------
  // getSharedLinks
  // ---------------------------------------------------------------------------

  /** `getSharedLinks` returns `[]` on a listing failure or when no document has
      the shared id; otherwise one shared record per link of the first such document. */
  lemma SharedLinksCases(listing: Fetch<seq<MemberDoc>>, iconsDoc: Fetch<Option<IconMap>>, k: nat)
    ensures listing.StoreError? ==> SharedLinks(listing, iconsDoc) == []
    ensures listing.Ok? && (forall j :: 0 <= j < |listing.value| ==> listing.value[j].id != SHARED_USER) ==>
      SharedLinks(listing, iconsDoc) == []
    ensures listing.Ok? && IsFirstMatch(listing.value, ById(SHARED_USER), k) ==>
      SharedLinks(listing, iconsDoc) ==
        ToRecords(if listing.value[k].links.Some? then listing.value[k].links.value else [], iconsDoc, true)
  {
    if listing.Ok? {
      FirstMatchIsFirst(listing.value, ById(SHARED_USER), k);
    }
  }

  /** Every shared record is tagged shared and its id is the prefixed title. */
  lemma SharedLinksAreTagged(listing: Fetch<seq<MemberDoc>>, iconsDoc: Fetch<Option<IconMap>>)
    ensures forall l :: l in SharedLinks(listing, iconsDoc) ==>
      l.isShared && l.id == SHARED_PREFIX + l.title && SHARED_PREFIX <= l.id
  {
    var r := SharedLinks(listing, iconsDoc);
    forall l | l in r ensures l.isShared && l.id == SHARED_PREFIX + l.title && SHARED_PREFIX <= l.id {
      var i :| 0 <= i < |r| && r[i] == l;
      assert l == MakeLink(SharedEntries(listing)[i], iconsDoc, true);
    }
  }

  // ---------------------------------------------------------------------------
  // getUserLinks
  // ---------------------------------------------------------------------------

  /** The aggregated list: every personal record, in entry order, then every shared
      record, in entry order; its length is the sum of the two maps' sizes. */
  lemma UserLinksLayout(docs: seq<MemberDoc>, sharedListing: Fetch<seq<MemberDoc>>,
                        iconsDoc: Fetch<Option<IconMap>>, email: string)
    ensures var r := UserLinks(Ok(docs), sharedListing, iconsDoc, email);
      var p := SelectedEntries(docs, ByEmail(email));
      var s := SharedEntries(sharedListing);
      |r| == |p| + |s| &&
      (forall i :: 0 <= i < |p| ==> r[i] == MakeLink(p[i], iconsDoc, false)) &&
      (forall i :: 0 <= i < |s| ==> r[|p| + i] == MakeLink(s[i], iconsDoc, true))
  {
    var p := SelectedEntries(docs, ByEmail(email));
    var s := SharedEntries(sharedListing);
    var personal := ToRecords(p, iconsDoc, false);
    var shared := ToRecords(s, iconsDoc, true);
    assert forall i :: 0 <= i < |s| ==> (personal + shared)[|p| + i] == shared[i];
  }

  /** No shared record comes before a personal one. */
  lemma PersonalBeforeShared(listing: Fetch<seq<MemberDoc>>, sharedListing: Fetch<seq<MemberDoc>>,
                             iconsDoc: Fetch<Option<IconMap>>, email: string)
    ensures var r := UserLinks(listing, sharedListing, iconsDoc, email);
      forall i, j :: 0 <= i < j < |r| && r[i].isShared ==> r[j].isShared
  {
    if listing.Ok? {
      var r := UserLinks(listing, sharedListing, iconsDoc, email);
      var n := |SelectedEntries(listing.value, ByEmail(email))|;
      UserLinksLayout(listing.value, sharedListing, iconsDoc, email);
      forall i | 0 <= i < |r| ensures r[i].isShared <==> i >= n {
        if i >= n {
          assert r[n + (i - n)].isShared;
        }
      }
    }
  }

  /** The fallbacks of `getUserLinks`: nothing when its listing fails, exactly the
      shared links when no member has the email or the matching member has no links. */
  lemma UserLinksFallbacks(listing: Fetch<seq<MemberDoc>>, sharedListing: Fetch<seq<MemberDoc>>,
                           iconsDoc: Fetch<Option<IconMap>>, email: string, k: nat)
    ensures listing.StoreError? ==> UserLinks(listing, sharedListing, iconsDoc, email) == []
    ensures listing.Ok? && (forall j :: 0 <= j < |listing.value| ==> listing.value[j].email != email) ==>
      UserLinks(listing, sharedListing, iconsDoc, email) == SharedLinks(sharedListing, iconsDoc)
    ensures listing.Ok? && IsFirstMatch(listing.value, ByEmail(email), k) && LinksOrEmpty(listing.value[k].links) == [] ==>
      UserLinks(listing, sharedListing, iconsDoc, email) == SharedLinks(sharedListing, iconsDoc)
  {
    if listing.Ok? {
      var docs := listing.value;
      FirstMatchIsFirst(docs, ByEmail(email), k);
      if SelectedEntries(docs, ByEmail(email)) == [] {
        assert PersonalLinks(docs, iconsDoc, email) == [];
      }
    }
  }

  /** The personal scan does not skip the shared account: when the first member with
      the email is the shared document, its links appear twice, once personal and
      once shared. */
  lemma SharedAccountAlsoPersonal(docs: seq<MemberDoc>, iconsDoc: Fetch<Option<IconMap>>, email: string, k: nat)
    requires IsFirstMatch(docs, ByEmail(email), k) && IsFirstMatch(docs, ById(SHARED_USER), k)
    ensures var es := LinksOrEmpty(docs[k].links);
      UserLinks(Ok(docs), Ok(docs), iconsDoc, email) == ToRecords(es, iconsDoc, false) + ToRecords(es, iconsDoc, true)
  {
    FirstMatchIsFirst(docs, ByEmail(email), k);
    FirstMatchIsFirst(docs, ById(SHARED_USER), k);
  }

  // ---------------------------------------------------------------------------
  // Icons
  // ---------------------------------------------------------------------------

  /** The icon document decides only the `icon` fields: whatever it holds, and
      whether or not its fetch fails, no record is dropped, added or reordered. */
  lemma IconsOnlyDecorate(listing: Fetch<seq<MemberDoc>>, sharedListing: Fetch<seq<MemberDoc>>,
                          icons1: Fetch<Option<IconMap>>, icons2: Fetch<Option<IconMap>>, email: string)
    ensures var r1 := UserLinks(listing, sharedListing, icons1, email);
      var r2 := UserLinks(listing, sharedListing, icons2, email);
      |r1| == |r2| && forall i :: 0 <= i < |r1| ==> r1[i].(icon := None) == r2[i].(icon := None)
  {
    if listing.Ok? {
      UserLinksLayout(listing.value, sharedListing, icons1, email);
      UserLinksLayout(listing.value, sharedListing, icons2, email);
      var r1 := UserLinks(listing, sharedListing, icons1, email);
      var r2 := UserLinks(listing, sharedListing, icons2, email);
      var n := |SelectedEntries(listing.value, ByEmail(email))|;
      forall i | 0 <= i < |r1| ensures r1[i].(icon := None) == r2[i].(icon := None) {
        if i >= n {
          assert r1[n + (i - n)] == r1[i];
        }
      }
    }
  }

  /** Each icon comes from the icon document, under the record's own title, and is
      never empty; without the document (absent or failed fetch) no record has one. */
  lemma IconsFromIconDocument(listing: Fetch<seq<MemberDoc>>, sharedListing: Fetch<seq<MemberDoc>>,
                              iconsDoc: Fetch<Option<IconMap>>, email: string)
    ensures forall l :: l in UserLinks(listing, sharedListing, iconsDoc, email) && l.icon.Some? ==>
      iconsDoc.Ok? && iconsDoc.value.Some? && l.title in iconsDoc.value.value &&
      l.icon.value == iconsDoc.value.value[l.title] && l.icon.value != ""
    ensures iconsDoc.StoreError? || iconsDoc == Ok(None) ==>
      forall l :: l in UserLinks(listing, sharedListing, iconsDoc, email) ==> l.icon.None?
  {
    var r := UserLinks(listing, sharedListing, iconsDoc, email);
    if listing.Ok? {
      UserLinksLayout(listing.value, sharedListing, iconsDoc, email);
      var n := |SelectedEntries(listing.value, ByEmail(email))|;
      forall l | l in r ensures l.icon == GetLinkIcon(iconsDoc, l.title) {
        var i :| 0 <= i < |r| && r[i] == l;
        if i >= n {
          assert r[n + (i - n)] == l;
        }
      }
    }
  }

  // ---------------------------------------------------------------------------
  // Record ids
  // ---------------------------------------------------------------------------

  /** Within one portion, ids are distinct exactly when titles are. */
  lemma PortionIdsDistinct(entries: seq<Entry>, iconsDoc: Fetch<Option<IconMap>>, shared: bool)
    ensures IdsDistinct(ToRecords(entries, iconsDoc, shared)) <==> DistinctTitles(entries)
  {
    var r := ToRecords(entries, iconsDoc, shared);
    if DistinctTitles(entries) {
      forall i, j | 0 <= i < j < |r| ensures r[i].id != r[j].id {
        assert r[i].id == LinkId(entries[i].title, shared);
      }
    }
  }

  /** The ids of two lists put together are distinct exactly when each list's are and
      no id occurs in both. */
  lemma AppendIdsDistinct(p: seq<UserLink>, s: seq<UserLink>)
    ensures IdsDistinct(p + s) <==>
      IdsDistinct(p) && IdsDistinct(s) && forall i, j :: 0 <= i < |p| && 0 <= j < |s| ==> p[i].id != s[j].id
  {
    var r := p + s;
    assert forall i :: 0 <= i < |p| ==> r[i] == p[i];
    assert forall j :: 0 <= j < |s| ==> r[|p| + j] == s[j];
    if IdsDistinct(r) {
      forall i, j | 0 <= i < j < |s| ensures s[i].id != s[j].id {
        assert r[|p| + i].id != r[|p| + j].id;
      }
      forall i, j | 0 <= i < |p| && 0 <= j < |s| ensures p[i].id != s[j].id {
        assert r[i].id != r[|p| + j].id;
      }
    } else {
      var a, b :| 0 <= a < b < |r| && r[a].id == r[b].id;
      if a >= |p| {
        assert s[a - |p|].id == s[b - |p|].id;
      } else if b >= |p| {
        assert p[a].id == s[b - |p|].id;
      }
    }
  }

  /** Some personal title is the shared prefix followed by some shared title. */
  predicate TitlesClash(personal: seq<Entry>, shared: seq<Entry>) {
    exists i, j :: 0 <= i < |personal| && 0 <= j < |shared| && personal[i].title == LinkId(shared[j].title, true)
  }

  /** Ids of personal records followed by shared records are all distinct exactly when
      titles are distinct within each portion and no personal title is the shared
      prefix followed by a shared title. */
  lemma CombinedIdsDistinct(personal: seq<Entry>, shared: seq<Entry>, iconsDoc: Fetch<Option<IconMap>>)
    ensures IdsDistinct(ToRecords(personal, iconsDoc, false) + ToRecords(shared, iconsDoc, true)) <==>
      DistinctTitles(personal) && DistinctTitles(shared) && !TitlesClash(personal, shared)
  {
    var p := ToRecords(personal, iconsDoc, false);
    var s := ToRecords(shared, iconsDoc, true);
    AppendIdsDistinct(p, s);
    PortionIdsDistinct(personal, iconsDoc, false);
    PortionIdsDistinct(shared, iconsDoc, true);
    if TitlesClash(personal, shared) {
      var i, j :| 0 <= i < |personal| && 0 <= j < |shared| && personal[i].title == LinkId(shared[j].title, true);
      assert p[i].id == s[j].id;
    }
  }

  /** Member documents with well-formed links maps yield entries with distinct titles. */
  lemma SelectedEntriesDistinct(docs: seq<MemberDoc>, key: DocKey)
    requires WellFormedListing(docs)
    ensures DistinctTitles(SelectedEntries(docs, key))
  {
  }

  /** For well-formed listings, the ids of `getUserLinks` are all distinct exactly when
      no personal title equals the shared prefix followed by a shared title. */
  lemma UserLinkIdsDistinct(docs: seq<MemberDoc>, sharedListing: Fetch<seq<MemberDoc>>,
                            iconsDoc: Fetch<Option<IconMap>>, email: string)
    requires WellFormedListing(docs)
    requires sharedListing.Ok? ==> WellFormedListing(sharedListing.value)
    ensures var p := SelectedEntries(docs, ByEmail(email));
      var s := SharedEntries(sharedListing);
      IdsDistinct(UserLinks(Ok(docs), sharedListing, iconsDoc, email)) <==>
        forall i, j :: 0 <= i < |p| && 0 <= j < |s| ==> p[i].title != SHARED_PREFIX + s[j].title
  {
    SelectedEntriesDistinct(docs, ByEmail(email));
    if sharedListing.Ok? {
      SelectedEntriesDistinct(sharedListing.value, ById(SHARED_USER));
    }
    CombinedIdsDistinct(SelectedEntries(docs, ByEmail(email)), SharedEntries(sharedListing), iconsDoc);
  }

  /** In particular, ids are unique whenever no personal title starts with the shared prefix. */
  lemma UnprefixedTitlesGiveUniqueIds(docs: seq<MemberDoc>, sharedListing: Fetch<seq<MemberDoc>>,
                                      iconsDoc: Fetch<Option<IconMap>>, email: string)
    requires WellFormedListing(docs)
    requires sharedListing.Ok? ==> WellFormedListing(sharedListing.value)
    requires forall e :: e in SelectedEntries(docs, ByEmail(email)) ==> !(SHARED_PREFIX <= e.title)
    ensures IdsDistinct(UserLinks(Ok(docs), sharedListing, iconsDoc, email))
  {
    var p := SelectedEntries(docs, ByEmail(email));
    var s := SharedEntries(sharedListing);
    UserLinkIdsDistinct(docs, sharedListing, iconsDoc, email);
    forall i, j | 0 <= i < |p| && 0 <= j < |s| ensures p[i].title != SHARED_PREFIX + s[j].title {
      assert p[i] in p;
    }
  }

  /** A personal title `shared-Wiki` next to a shared title `Wiki` gives two records with one id. */
  lemma PrefixedTitleCollides(iconsDoc: Fetch<Option<IconMap>>)
    ensures !IdsDistinct(ToRecords([Entry("shared-Wiki", "https://a")], iconsDoc, false) +
                         ToRecords([Entry("Wiki", "https://wiki")], iconsDoc, true))
  {
    var r := ToRecords([Entry("shared-Wiki", "https://a")], iconsDoc, false) +
             ToRecords([Entry("Wiki", "https://wiki")], iconsDoc, true);
    assert r[0].id == "shared-Wiki";
    assert r[1].id == SHARED_PREFIX + "Wiki";
  }

  // ---------------------------------------------------------------------------
  // A worked example
  // ---------------------------------------------------------------------------

  /** One member with a `Docs` link, the shared account with a `Wiki` link, and an icon
      for each: the member sees `Docs` then `shared-Wiki`; an unknown email sees only
      the shared link, and gets no profile. */
  lemma DocsAndWikiExample(docs: seq<MemberDoc>, iconsDoc: Fetch<Option<IconMap>>)
    requires docs == [MemberDoc("a", "A", "a@x.com", Some([Entry("Docs", "https://docs")])),
                      MemberDoc(SHARED_USER, "Wassociates", "wassociates@x.com", Some([Entry("Wiki", "https://wiki")]))]
    requires iconsDoc == Ok(Some(map["Docs" := "file", "Wiki" := "globe"]))
    ensures UserLinks(Ok(docs), Ok(docs), iconsDoc, "a@x.com") ==
      [UserLink("Docs", "Docs", "https://docs", Some("file"), false),
       UserLink("shared-Wiki", "Wiki", "https://wiki", Some("globe"), true)]
    ensures UserLinks(Ok(docs), Ok(docs), iconsDoc, "ghost@x.com") ==
      [UserLink("shared-Wiki", "Wiki", "https://wiki", Some("globe"), true)]
    ensures ResolvedProfile(Ok(docs), "ghost@x.com") == None
  {
    FirstMatchIsFirst(docs, ByEmail("a@x.com"), 0);
    FirstMatchIsFirst(docs, ById(SHARED_USER), 1);
    assert FirstMatch(docs, ByEmail("ghost@x.com")) == None;
    var docsLink := MakeLink(Entry("Docs", "https://docs"), iconsDoc, false);
    var wikiLink := MakeLink(Entry("Wiki", "https://wiki"), iconsDoc, true);
    assert docsLink == UserLink("Docs", "Docs", "https://docs", Some("file"), false);
    assert LinkId("Wiki", true) == "shared-Wiki";
    assert wikiLink == UserLink("shared-Wiki", "Wiki", "https://wiki", Some("globe"), true);
    assert PersonalLinks(docs, iconsDoc, "a@x.com") == [docsLink];
    assert SharedLinks(Ok(docs), iconsDoc) == [wikiLink];
  }
}
