# Neon Tech front end: a verified model of its editing and messaging core

This project models the stateful logic of five parts of the Neon Tech React front end and proves properties about that logic:

- **Website builder** (`Editor`, editor.dfy). A site document is an ordered list of pages. Each page is an ordered list of typed, positioned elements. The model covers:
  - seeding the document from a template;
  - adding, deleting and updating elements on the selected page;
  - the properties panel's lookup;
  - the "AI" generator, which deterministically turns a business name, a description and a comma-separated link list into header, description and link elements;
  - canvas widths;
  - save and publish.

  The component's state is the class `Editor.Builder`. Every change to the document is a pure function on `SiteData`.
- **Site store** (`Sites`, sites.dfy). This is the dashboard's list of site records. It covers:
  - creating a site, with blank-name validation, a slug derived from the name and an appended draft record;
  - saving and publishing editor data into the record being edited;
  - the aggregate figures passed to the fingerprint card;
  - the open and share links of a published site.

  The state is the class `Sites.Dashboard`.
- **Inbox** (`Inbox`, inbox.dfy). Covers the search and drop-down filters over contact messages, the count of new messages, and the badge and icon lookup tables.
- **Team chat** (`TeamChat`, team_chat.dfy). Covers sending the draft as a message (the class `TeamChat.ChatRoom`), the Enter-key rule, resolving the sender's name, the online count, deciding whether a message is the user's own, and the avatar.
- **Fingerprint card** (`FingerprintCard`, fingerprint_card.dfy). Covers the defaults of optional props, the neon-score bands, the badge row with its "+N" overflow chip, the share request and URL, and the plan and tier tables.

Three shared modules support the others:

- `Options` holds `Option`.
- `Seqs` holds `Array.prototype.filter` and `find`, with subsequence and idempotence facts.
- `Strings` holds the string operations the code uses, each with its properties:
  - `trim` and "is blank";
  - ASCII `toLowerCase`;
  - `includes`;
  - `split(',')`;
  - the slug rule `replace(/\s+/g, '-')`;
  - decimal rendering of numbers.

Clock readings (`Date.now()`), formatted times, and whether the browser can share natively are all inputs to the operations that use them. The template catalog (`NEON_TEMPLATES`) is a parameter: a list of `Template` records holding page names, colour schemes and fonts.

In these places the model follows what the code does:

- Switching pages does not clear the element selection.
- An update that carries `styles` replaces the whole style record. The properties panel merges the style keys itself before it calls the update.
- Empty pieces of the link list such as `"a,,b"` are kept, and each one becomes a link element.
- Saving copies the editor document's `published` flag into the site record. The builder always opens unpublished, so saving straight after opening a published site makes it unpublished while its status stays active (`Sites.SaveUnchangedDocument`).
- A generation replaces the elements of the page that was selected when the button was pressed, not the page selected when the timer fires.

## Model

| member | source | states |
|---|---|---|
| Strings.Trim | src/components/WebsiteBuilder.tsx:226 | `trim` drops leading and trailing whitespace; the result is empty iff the input is blank, and otherwise starts and ends with a non-space |
| Strings.TrimStart | src/components/WebsiteBuilder.tsx:226 | the result is a suffix of the input, everything cut off is whitespace, and it does not start with whitespace |
| Strings.TrimEnd | src/components/WebsiteBuilder.tsx:226 | the result is a prefix of the input, everything cut off is whitespace, and it does not end with whitespace |
| Strings.TrimIsSlice | src/components/WebsiteBuilder.tsx:226 | the trimmed string is the slice of the input between a blank prefix and a blank suffix |
| Strings.TrimIdempotent | src/components/WebsiteBuilder.tsx:263 | trimming a trimmed string changes nothing |
| Strings.ToLower | src/components/ContactMessagesPanel.tsx:94 | ASCII `toLowerCase` keeps the length and lowers each letter |
| Strings.ToLowerIdempotent | src/components/ContactMessagesPanel.tsx:94-96 | lowering twice is lowering once |
| Strings.ContainsIff | src/components/ContactMessagesPanel.tsx:94-96 | `includes` holds iff the term occurs at some position |
| Strings.Split | src/components/WebsiteBuilder.tsx:263 | `split(',')` yields at least one piece and no piece contains the separator |
| Strings.JoinSplit | src/components/WebsiteBuilder.tsx:263 | joining the pieces with the separator gives back the input |
| Strings.SplitCount | src/components/WebsiteBuilder.tsx:263 | the number of pieces is one more than the number of separators |
| Strings.TrimAll | src/components/WebsiteBuilder.tsx:263 | `map(link => link.trim())` trims each piece and keeps the count |
| Strings.Slug | src/pages/Dashboard.tsx:79 | the slug is no longer than the name, contains no whitespace and is lower case |
| Strings.HyphenateRun | src/pages/Dashboard.tsx:79 | a maximal whitespace run between non-space text becomes exactly one `-` |
| Strings.SlugIdempotent | src/pages/Dashboard.tsx:79 | deriving the slug of a slug changes nothing |
| Strings.NatToStringInjective | src/components/WebsiteBuilder.tsx:266 | different numbers render differently, so numbered ids never collide |
| Seqs.FilterIsSubsequence | src/components/ContactMessagesPanel.tsx:93-102 | `filter` keeps order and adds nothing |
| Seqs.Filter | src/components/ContactMessagesPanel.tsx:93-102 | `filter` keeps exactly the elements satisfying the predicate and is never longer than its input; with every element satisfying it the input comes back whole |
| Seqs.FilterCounts | src/components/ContactMessagesPanel.tsx:93-102 | each element satisfying the predicate occurs in the result as many times as in the input, and every other element of the input not at all |
| Seqs.FilterIdempotent | src/components/ContactMessagesPanel.tsx:93-102 | filtering twice with the same predicate is filtering once |
| Seqs.FindFirst | src/components/WebsiteBuilder.tsx:52 | `find` returns nothing iff no element matches, else an element matching with no earlier match |
| Editor.DefaultElements | src/components/WebsiteBuilder.tsx:83-144 | every page gets its header and content text; only "Home" adds `cta-button` and only "Contact" adds `contact-form`, so the count is 3 for those and 2 otherwise |
| Editor.DefaultElementsDistinct | src/components/WebsiteBuilder.tsx:83-144 | the seeded element ids of a page are pairwise distinct |
| Editor.DefaultContent | src/components/WebsiteBuilder.tsx:146-161 | the fixed paragraph for Home, About, Services, Portfolio and Contact; every other page gets "Welcome to our <name> page. Discover what makes us different." |
| Editor.FindTemplate | src/components/WebsiteBuilder.tsx:52 | the template found is the first catalog entry with the requested id; none is found iff no catalog entry has it |
| Editor.InitialTheme | src/components/WebsiteBuilder.tsx:67-70 | first colour scheme else the default scheme; first font unless missing or empty, else "Inter" |
| Editor.InitialSiteData | src/components/WebsiteBuilder.tsx:54-74 | one page per template page name in order, with id `page-<index>`, default elements and the `seo` record `SeoFor` of the page and site names; no pages when the template is missing; unpublished, no custom code |
| Editor.SeoFor | src/components/WebsiteBuilder.tsx:61-65 | a seeded page's title is `<page> - <site>`, its description `<page> page for <site>`, its keywords `<site>, <page in lower case>, neon tech` |
| Editor.InitialIdsDistinct | src/components/WebsiteBuilder.tsx:57-61 | the seeded page ids are pairwise distinct, and so are the element ids of each page |
| Editor.AddedIdInjective | src/components/WebsiteBuilder.tsx:165 | elements added at different clock readings get different ids |
| Editor.NewElement | src/components/WebsiteBuilder.tsx:164-177 | a new element is at (100,100), 200 wide, 50/200/100 high for text/image/other, with content chosen by type, padding 1rem always, font size 1rem for text only, white colour for text and buttons, the button or section background, and a 0.5rem radius for buttons and sections |
| Editor.AddElementTo | src/components/WebsiteBuilder.tsx:179-186 | the selected page gains exactly one element, at the end; its other fields, every other page and the document fields are unchanged; an out-of-range page index changes nothing |
| Editor.AddKeepsDistinct | src/components/WebsiteBuilder.tsx:163-186 | adding an element whose id is not yet on the page keeps that page's ids distinct |
| Editor.Builder.AddElement | src/components/WebsiteBuilder.tsx:163-190 | the document becomes `AddElementTo` of the old one and the selection becomes the new id; unique ids are kept when the clock reading's id is not already on the page |
| Editor.RemoveId | src/components/WebsiteBuilder.tsx:197 | the kept elements are a subsequence of the page, containing exactly the elements whose id differs, each as often as on the page |
| Editor.DeleteElementFrom | src/components/WebsiteBuilder.tsx:192-200 | only the selected page's element list changes, to `RemoveId` of it |
| Editor.DeleteTwice | src/components/WebsiteBuilder.tsx:192-200 | a second delete of the same id changes nothing |
| Editor.DeleteKeepsDistinct | src/components/WebsiteBuilder.tsx:197 | deleting keeps ids distinct and leaves no element with the deleted id |
| Editor.AddKeepsWellFormed | src/components/WebsiteBuilder.tsx:163-186 | adding an element whose id is not on the page keeps page ids and every page's element ids distinct |
| Editor.DeleteKeepsWellFormed | src/components/WebsiteBuilder.tsx:192-200 | deleting keeps page ids and every page's element ids distinct |
| Editor.UpdateKeepsWellFormed | src/components/WebsiteBuilder.tsx:208-222 | an update that carries no id keeps page ids and every page's element ids distinct |
| Editor.GenerateKeepsWellFormed | src/components/WebsiteBuilder.tsx:233-290 | writing the generated elements to a page keeps page ids and every page's element ids distinct |
| Editor.Builder.DeleteElement | src/components/WebsiteBuilder.tsx:192-206 | the document becomes `DeleteElementFrom` of the old one; the selection becomes none iff it was the deleted id; unique ids are kept |
| Editor.Merge | src/components/WebsiteBuilder.tsx:215 | `{...el, ...updates}`: every key present in the update wins, every absent key keeps its value |
| Editor.UpdateMatching | src/components/WebsiteBuilder.tsx:214-216 | exactly the elements with the id are merged, the rest are unchanged; an id not found changes nothing |
| Editor.UpdateElementIn | src/components/WebsiteBuilder.tsx:208-222 | only the selected page's elements change; an id not on the page or a page index out of range leaves the document unchanged |
| Editor.Builder.UpdateElement | src/components/WebsiteBuilder.tsx:208-222 | the document becomes `UpdateElementIn` of the old one; unique ids are kept when the update carries no id |
| Editor.ContentEditOnlyContent | src/components/WebsiteBuilder.tsx:552 | the content field's edit changes the content and nothing else |
| Editor.StyleEditsKeepOtherKeys | src/components/WebsiteBuilder.tsx:564-577 | the font-size and colour edits change one style key and keep the others |
| Editor.StylesReplacedWhole | src/components/WebsiteBuilder.tsx:215 | an update carrying `styles` replaces the element's whole style record |
| Editor.ShownFontSize | src/components/WebsiteBuilder.tsx:563 | the font-size field shows the element's value, or "1rem" when absent or empty |
| Editor.ShownColor | src/components/WebsiteBuilder.tsx:574 | the colour field shows the element's value, or "#FFFFFF" when absent or empty |
| Editor.FindElement | src/components/WebsiteBuilder.tsx:542 | the panel's element is the first with the selected id; none iff the page has no such id |
| Editor.Builder.SelectedElementDetails | src/components/WebsiteBuilder.tsx:538-543 | no element without a non-empty selection, for a page index out of range, or for an id not on the selected page; otherwise an element of that page with that id |
| Editor.LinkPieces | src/components/WebsiteBuilder.tsx:262-263 | no links when the list trims to empty; otherwise one trimmed piece per comma-separated piece (separators + 1), empty pieces kept |
| Editor.GeneratedShape | src/components/WebsiteBuilder.tsx:234-277 | a generation yields 2 + k elements: header "Welcome to <name>", description (the description if non-empty, else "<name> - Crafting excellence…"), then link i with id `ai-link-i` at (50 + 200·i, 400) holding piece i |
| Editor.GeneratedIdsDistinct | src/components/WebsiteBuilder.tsx:234-277 | the generated element ids are pairwise distinct |
| Editor.LinkElementsDistinct | src/components/WebsiteBuilder.tsx:264-267 | the numbered link ids are pairwise distinct |
| Editor.SynthesizeElements | src/components/WebsiteBuilder.tsx:234-277 | the `forEach` that pushes one link element per piece produces exactly `GeneratedElements` |
| Editor.ReplaceElements | src/components/WebsiteBuilder.tsx:279-285 | only the target page's elements are replaced; other pages and document fields are unchanged |
| Editor.Builder.StartGenerate | src/components/WebsiteBuilder.tsx:224-233 | a blank business name changes nothing; otherwise a generation capturing the inputs and the selected page is scheduled and `isGenerating` is set |
| Editor.Builder.CompleteGenerate | src/components/WebsiteBuilder.tsx:233-290 | the earliest scheduled generation replaces the elements of the page it captured; `isGenerating` is cleared; unique ids are kept |
| Editor.CanvasWidth | src/components/WebsiteBuilder.tsx:305-311 | mobile 375, tablet 768, desktop 1200 |
| Editor.Builder.SetPreviewMode | src/components/WebsiteBuilder.tsx:348-360 | the preview mode is set and the canvas width follows it |
| Editor.Builder.SelectPage | src/components/WebsiteBuilder.tsx:433 | a page switch changes the selected page and nothing else; the element selection survives |
| Editor.Builder.ClickElement | src/components/WebsiteBuilder.tsx:657 | clicking an element selects it, except in preview where nothing changes |
| Editor.Builder.TogglePreview | src/components/WebsiteBuilder.tsx:376 | preview mode flips |
| Editor.Builder.Save | src/components/WebsiteBuilder.tsx:293-296 | the save callback receives the current document unchanged |
| Editor.Builder.Publish | src/components/WebsiteBuilder.tsx:298-303 | the document becomes published with nothing else changed, and that document goes to the publish callback; unique ids are kept |
| Editor.Builder.constructor | src/components/WebsiteBuilder.tsx:44-74 | the builder starts on page 0, nothing selected, desktop, not previewing or generating, with the seeded document; the template is missing (the "Template not found" view) iff no catalog entry has the id, and then there are no pages; page ids and each page's element ids start out distinct (`Valid`) |
| Sites.OrElse | src/pages/Dashboard.tsx:77 | `editingTemplateId \|\| "luxury-portfolio"`: a missing or empty id falls back |
| Sites.NewSite | src/pages/Dashboard.tsx:71-81 | the new record is a draft with 0 visits, unpublished, modified "now", named as typed, with the slug of the name and the template or its default |
| Sites.SlugKeepsLeadingRun | src/pages/Dashboard.tsx:79 | the name is not trimmed: leading whitespace becomes a leading `-` |
| Sites.AppendFreshKeepsDistinct | src/pages/Dashboard.tsx:83 | appending a record with a fresh id keeps the ids distinct |
| Sites.Dashboard.constructor | src/pages/Dashboard.tsx:31-62 | the store starts with the given records, with no site being edited, an empty name field and the modal closed; the store is valid (ids distinct) exactly when the given records have distinct ids |
| Sites.Dashboard.CreateSite | src/pages/Dashboard.tsx:65-88 | a blank name changes nothing; otherwise exactly one new draft record is appended, it becomes the editing site, the modal closes and the name is cleared; distinct ids are kept when the id is fresh |
| Sites.Saved | src/pages/Dashboard.tsx:94 | the merged record takes name, template and published from the editor data and "now" as modification time; id, status, visits, slug and domain are kept |
| Sites.Published | src/pages/Dashboard.tsx:105 | the publish merge makes the record published and active whatever it was |
| Sites.LastWriteWins | src/pages/Dashboard.tsx:91-109 | a save or publish after a save or publish forgets the earlier editor data |
| Sites.MergeInto | src/pages/Dashboard.tsx:92-96 | only records whose id equals the editing id change; ids and visits are kept everywhere |
| Sites.MergeTouchesOne | src/pages/Dashboard.tsx:103-107 | with distinct ids, a save or publish changes at most one record |
| Sites.MergeWithoutTarget | src/pages/Dashboard.tsx:92-96 | with no editing id, or one no record has, nothing changes |
| Sites.Dashboard.SaveSite | src/pages/Dashboard.tsx:91-100 | the records become the save merge and both editing ids are cleared; distinct ids are kept |
| Sites.Dashboard.PublishSite | src/pages/Dashboard.tsx:102-111 | the records become the publish merge and both editing ids are cleared; distinct ids are kept |
| Sites.Dashboard.Back | src/pages/Dashboard.tsx:141-144 | leaving the builder clears both editing ids |
| Sites.TotalVisitors | src/pages/Dashboard.tsx:124 | the visitor total is at least every record's visits, and it is zero iff every record has zero visits |
| Sites.TotalVisitorsAppend | src/pages/Dashboard.tsx:124 | the visitor total of a concatenation is the sum of the totals |
| Sites.TotalVisitorsPointwise | src/pages/Dashboard.tsx:124 | lists with the same visits at each position have the same total |
| Sites.MergeKeepsVisitors | src/pages/Dashboard.tsx:124 | save and publish leave the visitor total unchanged |
| Sites.CreateKeepsVisitors | src/pages/Dashboard.tsx:124 | a new site adds nothing to the visitor total |
| Sites.ProfileCard | src/pages/Dashboard.tsx:115-128 | the card shows the number of records as sites, the visits sum as visitors, tier Gold, score 850, active, code NTC-8849-VX |
| Sites.Dashboard.Card | src/pages/Dashboard.tsx:115-128 | the card built from the store shows the store's record count and visitor total, with the user's name and plan |
| Sites.OpenPath | src/pages/Dashboard.tsx:173-175 | the open button exists iff the site is published and targets `/s/<slug>` |
| Sites.ShareLink | src/pages/Dashboard.tsx:221-224 | the share button exists iff the site is published and copies `https://neontech.com/s/<slug>` |
| Sites.ShareLinkMatchesOpenPath | src/pages/Dashboard.tsx:175-224 | the share link is the open path on the public origin; two share links are equal iff the slugs are |
| Sites.PublishedLabel | src/pages/Dashboard.tsx:197 | the "Published" column reads "Yes" iff the site is published and "No" iff it is not |
| Sites.EditorTarget | src/pages/Dashboard.tsx:132-134 | the builder shows iff both editing ids are non-empty and a record has the site id, and shows the first such record |
| Sites.BuilderDocument | src/pages/Dashboard.tsx:137-140 | the builder opens on the editing template's seeded document, named after the site |
| Sites.SaveUnchangedDocument | src/pages/Dashboard.tsx:94 | saving right after opening keeps the name, takes the editing template and clears `published`, leaving the status as it was |
| Inbox.FilteredMessages | src/components/ContactMessagesPanel.tsx:93-102 | the listed messages are a subsequence of all messages; a message is listed iff it passes all three conditions, and then as often as it occurs |
| Inbox.SearchIff | src/components/ContactMessagesPanel.tsx:94-96 | the search matches iff the lower-cased term occurs in the lower-cased name, email or subject |
| Inbox.SearchIgnoresTermCase | src/components/ContactMessagesPanel.tsx:94-96 | the case of the search term does not matter |
| Inbox.SearchIgnoresOtherFields | src/components/ContactMessagesPanel.tsx:94-96 | the body, tags and phone are never searched |
| Inbox.StatusChoice | src/components/ContactMessagesPanel.tsx:98 | "all" accepts every status; any other choice accepts exactly the status of that name |
| Inbox.EmptySearchListsAll | src/components/ContactMessagesPanel.tsx:93-102 | an empty search with both filters on "all" lists every message in order |
| Inbox.FilterTwice | src/components/ContactMessagesPanel.tsx:93-102 | filtering the filtered list again with the same settings changes nothing |
| Inbox.NewCount | src/components/ContactMessagesPanel.tsx:144 | the badge counts new messages over all messages; it is 0 iff none is new |
| Inbox.NewBadgeMatchesNewFilter | src/components/ContactMessagesPanel.tsx:93-144 | choosing "new" with an empty search lists exactly as many messages as the badge counts |
| Inbox.StatusColor | src/components/ContactMessagesPanel.tsx:104-112 | blue, yellow and green for new, read and replied; grey for archived and anything unknown |
| Inbox.PriorityColor | src/components/ContactMessagesPanel.tsx:114-121 | red, yellow and green for high, medium and low; grey for anything unknown |
| Inbox.PriorityColorsDistinct | src/components/ContactMessagesPanel.tsx:114-121 | each known priority has its own colour, none of them the unknown grey |
| Inbox.SourceIcon | src/components/ContactMessagesPanel.tsx:123-130 | mail for email, phone for phone, the message icon for the form and anything unknown |
| Inbox.StatusName | src/components/ContactMessagesPanel.tsx:104-112 | the name of each status is the key the badge table gives that status's own colour under; archived gets grey |
| Inbox.PriorityName | src/components/ContactMessagesPanel.tsx:114-121 | the name of each priority is the key the colour table gives it red, yellow or green under |
| Inbox.SourceName | src/components/ContactMessagesPanel.tsx:123-130 | the name of each source is the key the icon table gives it the message, mail or phone icon under |
| TeamChat.FindMember | src/components/TeamChatInterface.tsx:127 | the roster lookup finds the first member with the id, or none iff no member has it |
| TeamChat.SenderName | src/components/TeamChatInterface.tsx:127 | "CEO" for the CEO; otherwise the matching member's name, or "You" when no member matches or the name is empty |
| TeamChat.SenderNameFirstEntry | src/components/TeamChatInterface.tsx:127 | with duplicate roster ids, the first entry's name is used |
| TeamChat.OnlineCount | src/components/TeamChatInterface.tsx:187 | the online count is the number of online members, at most the roster size |
| TeamChat.PresencePartition | src/components/TeamChatInterface.tsx:187 | online, away and offline counts add up to the roster size |
| TeamChat.AvatarFor | src/components/TeamChatInterface.tsx:256 | the roster avatar when present and non-empty, else the first character of the sender name |
| TeamChat.RoleIcon | src/components/TeamChatInterface.tsx:149-155 | crown iff ceo, shield iff staff, the user icon otherwise |
| TeamChat.RoleColor | src/components/TeamChatInterface.tsx:157-163 | lavender for ceo, neon blue for staff, muted for anything else |
| TeamChat.StatusColor | src/components/TeamChatInterface.tsx:165-172 | green online, yellow away, grey offline and anything unknown |
| TeamChat.AdminTakesDefaults | src/components/TeamChatInterface.tsx:149-163 | admins get the default icon and colour |
| TeamChat.RoleName | src/components/TeamChatInterface.tsx:149-163 | the name of each role is the key the tables give the crown and lavender (ceo), shield and neon blue (staff), and the defaults (admin) under |
| TeamChat.PresenceName | src/components/TeamChatInterface.tsx:165-172 | the name of each presence is the key the status-dot table gives green, yellow or grey under |
| TeamChat.OwnershipBySenderId | src/components/TeamChatInterface.tsx:249 | a message is drawn as one's own by its sender id alone: changing its name or role does not change that, and another sender's id never is |
| TeamChat.ChatRoom.SetDraft | src/components/TeamChatInterface.tsx:298-299 | typing sets the draft to the input's text |
| TeamChat.ChatRoom.constructor | src/components/TeamChatInterface.tsx:36-107 | the room starts with the given message list and an empty draft, for the given roster, user and role |
| TeamChat.ChatRoom.CanSend | src/components/TeamChatInterface.tsx:333 | the send button is enabled iff the trimmed draft is not empty |
| TeamChat.ChatRoom.Compose | src/components/TeamChatInterface.tsx:124-132 | a composed message is a text message from the current user with their role and resolved name, so it is drawn as their own |
| TeamChat.ChatRoom.SendMessage | src/components/TeamChatInterface.tsx:121-136 | a blank draft changes nothing; otherwise exactly one message with the untrimmed draft is appended after the earlier ones and the draft becomes empty |
| TeamChat.ChatRoom.KeyPress | src/components/TeamChatInterface.tsx:138-143 | Enter without Shift sends; Shift+Enter and every other key change nothing |
| FingerprintCard.WithDefaults | src/components/EnhancedDigitalFingerprintCard.tsx:29-34 | omitted props become code NTC-8849-VX, 0 sites, 0 visitors, Bronze, score 750, active; given props are kept |
| FingerprintCard.DefaultsKeepGivenProps | src/components/EnhancedDigitalFingerprintCard.tsx:29-34 | props that carry every optional field come through unchanged |
| FingerprintCard.ScoreBand | src/components/EnhancedDigitalFingerprintCard.tsx:86-91 | green iff ≥ 900, neon blue iff 750–899, yellow iff 600–749, red iff below 600 |
| FingerprintCard.BandMonotone | src/components/EnhancedDigitalFingerprintCard.tsx:86-91 | a higher score never lands in a worse band |
| FingerprintCard.NeonScoreColor | src/components/EnhancedDigitalFingerprintCard.tsx:86-91 | each band's class string, by score range |
| FingerprintCard.DisplayedBadges | src/components/EnhancedDigitalFingerprintCard.tsx:196 | the first min(3, n) badges in order |
| FingerprintCard.ShowsBadgeSection | src/components/EnhancedDigitalFingerprintCard.tsx:190 | the badge section is shown iff some badge is displayed |
| FingerprintCard.Overflow | src/components/EnhancedDigitalFingerprintCard.tsx:202-205 | the overflow chip exists iff n > 3 and counts n − 3 |
| FingerprintCard.BadgesAccounted | src/components/EnhancedDigitalFingerprintCard.tsx:196-205 | every badge is either displayed or counted by the chip, and the displayed ones are the prefix |
| FingerprintCard.OverflowLabel | src/components/EnhancedDigitalFingerprintCard.tsx:204 | the chip reads `+<n − 3>` exactly when n > 3 |
| FingerprintCard.ShareDataFor | src/components/EnhancedDigitalFingerprintCard.tsx:52-56 | the share title, text and URL `https://neontech.com/fingerprint/<number>` |
| FingerprintCard.ShareUrlInjective | src/components/EnhancedDigitalFingerprintCard.tsx:55 | two fingerprint numbers share a URL iff they are equal |
| FingerprintCard.ShareUrlRoundTrip | src/components/EnhancedDigitalFingerprintCard.tsx:55 | dropping the fixed prefix from the URL gives back the fingerprint number |
| FingerprintCard.ShareCard | src/components/EnhancedDigitalFingerprintCard.tsx:51-64 | the native share sheet gets the payload iff it exists; otherwise the URL is copied |
| FingerprintCard.PlanBadgeClass | src/components/EnhancedDigitalFingerprintCard.tsx:125-128 | the badge classes for Free, Pro and every other plan |
| FingerprintCard.PremiumGlowIffPaid | src/components/EnhancedDigitalFingerprintCard.tsx:72-76 | the premium glow shows iff the plan is Pro or Enterprise, which are exactly the plans without the plain shadow |
| FingerprintCard.ShowsPremiumGlow | src/components/EnhancedDigitalFingerprintCard.tsx:314 | the shimmer overlay is drawn iff the plan is Pro or Enterprise |
| FingerprintCard.PlanColors | src/components/EnhancedDigitalFingerprintCard.tsx:66-70 | the card gradient of each plan |
| FingerprintCard.PlanColorsDistinct | src/components/EnhancedDigitalFingerprintCard.tsx:66-70 | two plans get the same gradient iff they are the same plan |
| FingerprintCard.PlanGlow | src/components/EnhancedDigitalFingerprintCard.tsx:72-76 | the card shadow of each plan |
| FingerprintCard.PlanGlowDistinct | src/components/EnhancedDigitalFingerprintCard.tsx:72-76 | two plans get the same shadow iff they are the same plan |
| FingerprintCard.TierColors | src/components/EnhancedDigitalFingerprintCard.tsx:78-84 | the tier chip gradient of each tier |
| FingerprintCard.TierColorsDistinct | src/components/EnhancedDigitalFingerprintCard.tsx:78-84 | two tiers get the same gradient iff they are the same tier |
| FingerprintCard.StatusDotClass | src/components/EnhancedDigitalFingerprintCard.tsx:111 | a green pulsing dot while active, a grey one otherwise |

## Left out

- JSX rendering, CSS classes other than the lookup tables above, icons, toasts, scrolling and file inputs: presentation only.
- The 3000 ms timer of the generator becomes two steps, `StartGenerate` and `CompleteGenerate`. Timers with equal delays fire in scheduling order, so pending generations form a queue. The button's `isGenerating` guard only disables a button, and it is not modelled as a precondition.
- `Date.now()` and `new Date()` are parameters: a number for added element ids, strings for site and chat ids and chat timestamps. `toLocaleString`, `toLocaleTimeString` and the card's one-second clock are left out, since they depend on the locale and the clock.
- `navigator.clipboard`, `navigator.share` and `window.open` are browser I/O. Only the text they would receive is modelled, plus the choice between sharing and copying.
- `NEON_TEMPLATES` and `getUserSiteLimit` are not part of this model. The template catalog is a parameter.
- Unicode case mapping and the full JavaScript `\s` class are left out. Lowercasing is ASCII, and whitespace is space, tab, line feed, vertical tab, form feed and carriage return.
- src/pages/CEODashboard.tsx and src/pages/StaffDashboard.tsx are left out: they only switch sections.
- The seed data of every component is left out. Initial lists are constructor parameters.
- The editor keys `pages`, `theme`, `customCSS` and `customJS`, which the dashboard's spread also copies into a site record, are left out. `Sites.Site` holds only the fields the record type declares.
- `handleEditSite`, the template gallery, and the inputs that set `newSiteName`, `showCreateSiteModal` and `editingTemplateId` are outside the shown code. They appear only as the plain setters `SetNewSiteName`, `OpenCreateModal` and `PickTemplate`.
- The builder's code editor, developer mode, side panels and the preview header text are left out: they have no behaviour beyond displaying state.
- The inbox's selected message and its variant styling are left out; they are display state. Chat reactions, replies, attachments, recording and the emoji picker are left out too: none of them has behaviour in the shown code.
- The card's flip, QR and verification toggles and `dateCreated` display are left out; they are presentation toggles over the modelled props.
- TeamChat.OnlineCount: the count is stated against the filter that defines it, and partitioned with the away and offline counts. No closed form beyond that is given.
- Inbox.NewCount: the "independent of the filters" promise holds by construction, because the function takes no filter inputs. No separate lemma states it.
- FingerprintCard.ScoreBand, FingerprintCard.WithDefaults, Sites.TotalVisitors, Editor.NewElement, Editor.LinkElement: JavaScript `number` values become unbounded `int` (score, site and visitor counts, positions and sizes) or `nat` (visits, clock readings). Fractional values, `NaN` and floating-point rounding cannot be expressed.
- Which properties-panel fields appear for which element type, and the site table's "Live"/"Draft" status label, are display only and are left out.
- Editor.Builder.Valid: unique ids are kept by every edit except two that the code does not guard. An added element's id is `element-<now>`, so an add keeps ids unique only when that clock reading is not already in use on the page. An update keeps them unique only when it carries no `id`, and the properties panel never sends one.
