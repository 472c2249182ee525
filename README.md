# Link aggregation of the Wassociates membership portal, in Dafny

This project models the link-aggregation service of a small membership portal
(`src/services/firestoreService.ts`). A signed-in member sees a dashboard with
their personal links and the links shared with every member. The service works out
that list from three parts of a Firestore database:

- the `members` collection: one document per member, with `displayName`, `email` and a
  `links` map from title to URL. The document whose id is `Wassociates` holds the shared links.
- the `admin/icons` document: a map from link title to icon name.
- the `admin/administrators` document: an `administrators` array of emails.

The model has no database. Each read becomes an input of type `Fetch<T>`, which is
either `Ok(value)` or `StoreError`. Every `try … catch` in the service becomes a case on
`StoreError`. A member listing is the sequence of documents in listing order. A links
map is the sequence of its `[title, url]` entries, in the order `Object.entries` yields them.

The model is in three modules:

- `Wrappers` (`wrappers.dfy`): `Option` and `Fetch`.
- `FirestoreService` (`firestore_service.dfy`): the data shapes, the constants
  `SHARED_USER` and `SHARED_PREFIX`, and the operations.
  - `isUserAdmin` and `getLinkIcon` are pure lookups, so they are functions.
  - `getSharedLinks`, `getUserLinks` and `getUserProfile` are `for` loops over the listing
    that stop at the first match. Each is a method with a loop, proved equal to a
    specification function. The specification functions are built on `FirstMatch`, a
    recursive first-match search.
  - `Promise.all(Object.entries(links).map(...))` keeps entry order, so it is the
    ordinary map `ToRecords`.
- `LinkProperties` (`link_properties.dfy`): lemmas about those specification functions.
- `Dashboard` (`dashboard.dfy`): the dashboard splits the aggregated list into a personal
  section and a shared section, and proves that the split recovers the two portions exactly.

`getUserLinks` reads the member listing twice. It reads it once itself, and
`getSharedLinks` reads it again. Either read can fail on its own, so `UserLinks` and
`GetUserLinks` take the two outcomes as separate inputs.

Some of the code's behaviour may surprise a reader. The model follows the code in each case:

- `getUserLinks` does not pass on a failure of its member listing. It returns `[]`
  (`src/services/firestoreService.ts:147-150`), and the dashboard then shows
  "no resources" instead of an error.
- The personal scan does not skip the shared account's document. A member whose email
  first matches that document (no earlier document has the same email) gets its links twice, once as personal records and once as
  shared records (`LinkProperties.SharedAccountAlsoPersonal`).
- The shared document is found by its document id only, not by its display name or email. The comment at `src/services/firestoreService.ts:25` calls the constant the "Name of the special user", but line 72 compares it with `memberDoc.id`.
- Links keep their entry order. They are not sorted by title.
- The `shared-` prefix does not make ids unique in every case, whatever the comment at `src/services/firestoreService.ts:82` ("Adding prefix to avoid ID collisions") suggests. A personal title
  `shared-Wiki` next to a shared title `Wiki` gives two records with the same id.
  `LinkProperties.UserLinkIdsDistinct` states the exact condition under which ids are unique.
- An icon that is the empty string counts as no icon (`|| null`, `|| undefined`).

## Model

| member | source | states |
|---|---|---|
| `FirestoreService.IsUserAdmin` | src/services/firestoreService.ts:31-42 | True exactly when the admin document was read, exists, its `administrators` field is an array, and that array contains the email. A store error, a missing document or a non-array field all give false. |
| `FirestoreService.GetLinkIcon` | src/services/firestoreService.ts:47-58 | Gives an icon exactly when the icons document was read, exists and has a non-empty value under the title. That value is the icon. A store error, a missing document, a missing key or an empty value all give none. This is the corrected lookup (see Findings). |
| `FirestoreService.GetLinkIconAsWritten` | src/services/firestoreService.ts:53 | The bracket lookup as written. It agrees with `GetLinkIcon` on every title that is not an `Object.prototype` member name (`__proto__`, `toString`, `constructor` and the others). It yields an inherited member exactly when the icons document was read and exists, the title is such a name, and the document has no own field with that name. A title that is an own field gives its stored value, or none when that value is empty. A store error or a missing document gives none for every title. |
| `FirestoreService.InheritedMemberLeaksAsIcon` | src/services/firestoreService.ts:53 | Take the icons document `{"Docs": "file"}`, which has no `toString` or `__proto__` field. As written, those titles get an inherited value as their icon: a function, or `Object.prototype`. The corrected lookup gives none. |
| `FirestoreService.LinkId` | src/services/firestoreService.ts:82 | A shared id is `shared-` followed by exactly the title. The prefix and the title can be read back from the id. A personal id is the title (line 129). |
| `FirestoreService.ToRecords` | src/services/firestoreService.ts:123-136 | One record per entry, same length, in entry order. Record i has entry i's title and URL, the id built from that title, the tag, and the icon lookup's result for that title. Lines 76-89 are the same mapping for shared links. |
| `FirestoreService.FirstMatch` | src/services/firestoreService.ts:115-140 | Gives an index whose document matches the key, with no matching document before it. Gives none only when no document matches. |
| `FirestoreService.GetSharedLinks` | src/services/firestoreService.ts:63-100 | The loop with its `break` and the failure fallback returns exactly `SharedLinks`: the records of the first document whose id is `Wassociates`, or `[]`. |
| `FirestoreService.GetUserLinks` | src/services/firestoreService.ts:105-151 | The loop with its `break` returns exactly `UserLinks`. That is the personal records of the first member with the email, followed by the shared links, or `[]` when its own listing fails. |
| `FirestoreService.GetUserProfile` | src/services/firestoreService.ts:156-181 | The loop with its early return returns exactly `ResolvedProfile`: the first matching member's profile, or none. |
| `LinkProperties.FirstMatchIsFirst` | src/services/firestoreService.ts:163-173 | The scan returns index k exactly when k is the first index whose document matches. |
| `LinkProperties.FirstMatchIgnoresLater` | src/services/firestoreService.ts:138 | Once some document matches, documents appended after it do not change the result (the `break`). |
| `LinkProperties.FirstMatchSkipsNonMatching` | src/services/firestoreService.ts:71-93 | Non-matching documents placed in front do not change which document is found. They only shift its index. |
| `LinkProperties.ProfileIsFirstMatch` | src/services/firestoreService.ts:156-181 | The profile is null exactly when the listing fails or no member has the email. Otherwise the profile is the first matching member's display name and email, with its links or the empty map. |
| `LinkProperties.SharedLinksCases` | src/services/firestoreService.ts:63-100 | Shared links are `[]` when the listing fails or no document has the shared id. Otherwise they are one shared record per link of the first such document, and `[]` when that document has no links. |
| `LinkProperties.SharedLinksAreTagged` | src/services/firestoreService.ts:81-87 | Every shared record has `isShared` set, and its id is `shared-` followed by its title. |
| `LinkProperties.UserLinksLayout` | src/services/firestoreService.ts:143-146 | The length is the number of personal entries plus the number of shared entries. The first records are the personal ones in entry order, then the shared ones in entry order. |
| `LinkProperties.PersonalBeforeShared` | src/services/firestoreService.ts:146 | After the first shared record, every record is shared. |
| `LinkProperties.UserLinksFallbacks` | src/services/firestoreService.ts:105-151 | A failed listing gives `[]`. In three cases the result is exactly the shared links: no member has the email, the first such member has no links field, or that field is the empty map. |
| `LinkProperties.SharedAccountAlsoPersonal` | src/services/firestoreService.ts:115-118 | Suppose the first member with the email is the shared document. Then the result is its links as personal records, followed by the same links as shared records. |
| `LinkProperties.IconsOnlyDecorate` | src/services/firestoreService.ts:123-136 | Any two icon-document outcomes, failure included, give lists of the same length that are equal at every position except the `icon` field. |
| `LinkProperties.IconsFromIconDocument` | src/services/firestoreService.ts:126-132 | Every icon is the non-empty entry of the icons document under the record's own title. With no icons document, or a failed fetch, no record has an icon. |
| `LinkProperties.PortionIdsDistinct` | src/services/firestoreService.ts:129 | Within one portion, personal or shared, ids are distinct exactly when titles are. |
| `LinkProperties.AppendIdsDistinct` | src/services/firestoreService.ts:146 | The ids of two concatenated lists are distinct exactly when each list's ids are distinct and no id appears in both. |
| `LinkProperties.CombinedIdsDistinct` | src/services/firestoreService.ts:146 | The ids of the personal records followed by the shared records are distinct exactly when three things hold: the personal titles are distinct, the shared titles are distinct, and no personal title equals `shared-` followed by a shared title. |
| `LinkProperties.UserLinkIdsDistinct` | src/services/firestoreService.ts:82 | Take well-formed links maps. The ids of `getUserLinks` are all distinct exactly when no personal title equals `shared-` followed by a shared title. |
| `LinkProperties.UnprefixedTitlesGiveUniqueIds` | src/services/firestoreService.ts:129 | If no personal title starts with `shared-`, the ids of `getUserLinks` are unique. |
| `LinkProperties.PrefixedTitleCollides` | src/services/firestoreService.ts:82 | A personal title `shared-Wiki` and a shared title `Wiki` produce two records with the same id. |
| `LinkProperties.DocsAndWikiExample` | src/services/firestoreService.ts:105-151 | A concrete case: a member with `Docs` sees `Docs`, then `shared-Wiki`, each with its icon. An unknown email sees only `shared-Wiki` and gets no profile. |
| `Dashboard.Section` | src/components/Dashboard.tsx:59-60 | The filter keeps exactly the records with the requested tag. Every kept record comes from the input and has the tag. Every input record with the tag is kept. |
| `Dashboard.SectionCounts` | src/components/Dashboard.tsx:59-60 | Each record occurs in the filtered list as often as in the input when it has the requested tag, and not at all otherwise. |
| `Dashboard.SectionAppend` | src/components/Dashboard.tsx:59-60 | Filtering a concatenation is filtering each part, then concatenating. |
| `Dashboard.DashboardSections` | src/components/Dashboard.tsx:59-60 | The personal section is exactly the personal portion of `getUserLinks`. The shared section is exactly `getSharedLinks`. Both are empty when the listing fails. |

## Left out

- ToRecords, GetSharedLinks, GetUserLinks: the records take their icon from the corrected `GetLinkIcon`, not from the lookup as written. A link titled `toString`, `__proto__` or another `Object.prototype` member name, with no such key in the icons document, gets no icon in the model. The code at `src/services/firestoreService.ts:79-85` and `:126-132` gives it an inherited value. See Findings.
- Firestore itself is left out: `getDoc`, `getDocs`, `collection`, `doc`, and the initialisation in `src/firebase/config.ts`. Their results are the `Fetch` inputs.
- Asynchrony and the concurrency of `Promise.all` are left out. Each fan-out is an ordinary map that keeps entry order.
- The icon document is read once per link in the service; the model has one read outcome per aggregation call. Different links in one call cannot see different icon-document outcomes. `IconsOnlyDecorate` shows that changing the outcome for a whole call changes only `icon` fields. Per link the same holds because `MakeLink` uses the icon document only for the record's `icon`, but the model does not state that as a lemma.
- `console.error` and `console.log` are left out, and so is the unused local `userDisplayName`. None of them has an observable effect.
- Document field types are fixed. `email`, `displayName`, link URLs, icon names and administrator entries are strings. A non-string value that JavaScript would compare or coerce differently is not modelled.
- A links map's entry order is taken as given. The rule that `Object.entries` lists integer-like keys first is not modelled.
- Titles within a links map are distinct because they are object keys. This is the predicate `WellFormedListing`, which is required only by the id lemmas.
- `src/contexts/AuthContext.tsx`, `src/components/Login.tsx`, `src/components/PrivateRoute.tsx` and `src/App.tsx` are left out. They are sign-in, routing and rendering. The rest of `src/components/Dashboard.tsx` (React state and rendering) is left out too.
- `deploy.ts` is left out. It is build and deploy process plumbing.
- Repeating a call gives an equal result by construction, because every operation is a function of its inputs. No separate lemma states this.

## Findings

| source | as written | input that shows it | evidently intended | confidence | as-written member | corrected member |
|---|---|---|---|---|---|---|
| src/services/firestoreService.ts:53 | `iconsData[title] \|\| null` reads inherited `Object.prototype` members of the plain object that `data()` returns. | Icons document `{"Docs": "file"}` and link title `toString`: the lookup yields `Object.prototype.toString`, a truthy function, and it becomes the record's `icon`. Title `__proto__` yields `Object.prototype` in the same way. | No icon (`null`) for a title that the icons document does not have. | medium; not executed | `FirestoreService.GetLinkIconAsWritten`, `FirestoreService.InheritedMemberLeaksAsIcon` | `FirestoreService.GetLinkIcon` |
