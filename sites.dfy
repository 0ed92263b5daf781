/**
 * The dashboard's site store (src/pages/Dashboard.tsx): the list of site records, the site
 * being edited, the create-site form, and the figures handed to the fingerprint card.
 */
module Sites {
  import opened Options
  import opened Strings
  import opened Seqs
  import Editor
  import FingerprintCard

  datatype Status = Draft | Active

  datatype Site = Site(
    id: string,
    name: string,
    status: Status,
    visits: nat,
    lastModified: string,
    template: string,
    slug: string,
    published: bool,
    customDomain: Option<string>)

  predicate DistinctIds(sites: seq<Site>)
  {
    forall i, j :: 0 <= i < j < |sites| ==> sites[i].id != sites[j].id
  }

  predicate IdFresh(sites: seq<Site>, id: string)
  {
    forall i :: 0 <= i < |sites| ==> sites[i].id != id
  }

  const DefaultTemplate := "luxury-portfolio"

  /** `x || fallback` on an optional string: a missing or empty string falls back. */
  function OrElse(x: Option<string>, fallback: string): (r: string)
    ensures x.Some? && x.value != "" ==> r == x.value
    ensures x.None? || x.value == "" ==> r == fallback
  {
    if x.Some? && x.value != "" then x.value else fallback
  }

  /** The record `handleCreateSite` appends: a draft with no visits, named as typed. */
  function NewSite(id: string, name: string, editingTemplateId: Option<string>): (s: Site)
    ensures s.id == id && s.name == name && s.status == Draft && s.visits == 0 && !s.published
    ensures s.lastModified == "now" && s.customDomain.None?
    ensures s.template == OrElse(editingTemplateId, DefaultTemplate)
    ensures s.slug == Slug(name)
  {
    Site(id, name, Draft, 0, "now", OrElse(editingTemplateId, DefaultTemplate), Slug(name), false, None)
  }

  /** The name is not trimmed: a leading blank becomes a leading hyphen of the slug. */
  lemma {:induction false} SlugKeepsLeadingRun(name: string)
    requires name != [] && IsSpace(name[0])
    ensures Slug(name) != [] && Slug(name)[0] == '-'
  {
    var low := ToLower(name);
    LowerCharSpace(name[0]);
    assert low[0] == LowerChar(name[0]);
    assert HyphenateFrom(low, false) == HyphenateStep(low[0], false) + HyphenateFrom(low[1..], IsSpace(low[0]));
  }

  /**
   * `{ ...fp, ...siteData, lastModified: "now" }`. Of the editor document's keys only
   * `name`, `template` and `published` are fields of a site record; the rest are left out.
   */
  function Saved(fp: Site, d: Editor.SiteData): (r: Site)
    ensures r.name == d.name && r.template == d.template && r.published == d.published
    ensures r.lastModified == "now"
    ensures r.id == fp.id && r.status == fp.status && r.visits == fp.visits
    ensures r.slug == fp.slug && r.customDomain == fp.customDomain
  {
    fp.(name := d.name, template := d.template, published := d.published, lastModified := "now")
  }

  /** `handlePublishSite`'s record: the save merge, then published and active whatever came before. */
  function Published(fp: Site, d: Editor.SiteData): (r: Site)
    ensures r.published && r.status == Active
    ensures r == Saved(fp, d).(published := true, status := Active)
  {
    Saved(fp, d).(published := true, status := Active)
  }

  /** The latest editor data wins: saving or publishing after a save forgets the earlier one. */
  lemma LastWriteWins(fp: Site, d1: Editor.SiteData, d2: Editor.SiteData)
    ensures Saved(Saved(fp, d1), d2) == Saved(fp, d2)
    ensures Published(Saved(fp, d1), d2) == Published(fp, d2)
    ensures Published(Published(fp, d1), d2) == Published(fp, d2)
  {
  }

  /** `prev.map(fp => fp.id === editingSiteId ? change(fp) : fp)` for save (`publish` false) or publish. */
  function MergeInto(sites: seq<Site>, editingSiteId: Option<string>, d: Editor.SiteData, publish: bool): (r: seq<Site>)
    ensures |r| == |sites|
    ensures forall k :: 0 <= k < |sites| && editingSiteId == Some(sites[k].id) ==>
      r[k] == if publish then Published(sites[k], d) else Saved(sites[k], d)
    ensures forall k :: 0 <= k < |sites| && editingSiteId != Some(sites[k].id) ==> r[k] == sites[k]
    ensures forall k :: 0 <= k < |sites| ==> r[k].id == sites[k].id && r[k].visits == sites[k].visits
  {
    seq(|sites|, k requires 0 <= k < |sites| =>
      if editingSiteId == Some(sites[k].id) then (if publish then Published(sites[k], d) else Saved(sites[k], d))
      else sites[k])
  }

  /** With distinct ids a save or publish changes at most one record. */
  lemma {:induction false} MergeTouchesOne(sites: seq<Site>, editingSiteId: Option<string>, d: Editor.SiteData, publish: bool, i: int, j: int)
    requires DistinctIds(sites)
    requires 0 <= i < |sites| && 0 <= j < |sites| && i != j
    requires MergeInto(sites, editingSiteId, d, publish)[i] != sites[i]
    ensures MergeInto(sites, editingSiteId, d, publish)[j] == sites[j]
  {
    assert editingSiteId == Some(sites[i].id);
  }

  /** No editing site, or an id no record has: the list is unchanged. */
  lemma MergeWithoutTarget(sites: seq<Site>, editingSiteId: Option<string>, d: Editor.SiteData, publish: bool)
    requires editingSiteId.None? || IdFresh(sites, editingSiteId.value)
    ensures MergeInto(sites, editingSiteId, d, publish) == sites
  {
  }

  // ---------------------------------------------------------------------------
  // Aggregates

  /** `fingerprints.reduce((total, fp) => total + fp.visits, 0)`: a left fold. */
  function TotalVisitors(sites: seq<Site>): (n: nat)
    ensures forall i :: 0 <= i < |sites| ==> sites[i].visits <= n
    ensures (forall i :: 0 <= i < |sites| ==> sites[i].visits == 0) <==> n == 0
  {
    if sites == [] then 0 else TotalVisitors(sites[..|sites| - 1]) + sites[|sites| - 1].visits
  }

  /** The total of a concatenation is the sum of the totals. */
  lemma {:induction false} TotalVisitorsAppend(a: seq<Site>, b: seq<Site>)
    ensures TotalVisitors(a + b) == TotalVisitors(a) + TotalVisitors(b)
    decreases |b|
  {
    if b == [] {
      assert a + b == a;
    } else {
      var b' := b[..|b| - 1];
      assert (a + b)[..|a + b| - 1] == a + b';
      TotalVisitorsAppend(a, b');
    }
  }

  /** Two lists whose records have the same visits position by position have the same total. */
  lemma {:induction false} TotalVisitorsPointwise(a: seq<Site>, b: seq<Site>)
    requires |a| == |b|
    requires forall k :: 0 <= k < |a| ==> a[k].visits == b[k].visits
    ensures TotalVisitors(a) == TotalVisitors(b)
    decreases |a|
  {
    if a != [] {
      TotalVisitorsPointwise(a[..|a| - 1], b[..|b| - 1]);
    }
  }

  /** Save and publish leave the visitor total as it was. */
  lemma MergeKeepsVisitors(sites: seq<Site>, editingSiteId: Option<string>, d: Editor.SiteData, publish: bool)
    ensures TotalVisitors(MergeInto(sites, editingSiteId, d, publish)) == TotalVisitors(sites)
  {
    TotalVisitorsPointwise(MergeInto(sites, editingSiteId, d, publish), sites);
  }

  /** Creating a site adds one to the site count and nothing to the visitor total. */
  lemma CreateKeepsVisitors(sites: seq<Site>, s: Site)
    requires s.visits == 0
    ensures TotalVisitors(sites + [s]) == TotalVisitors(sites)
  {
    TotalVisitorsAppend(sites, [s]);
    assert [s][..0] == [];
  }

  /** Appending a record whose id is fresh keeps the ids distinct. */
  lemma AppendFreshKeepsDistinct(sites: seq<Site>, s: Site)
    ensures DistinctIds(sites) && IdFresh(sites, s.id) ==> DistinctIds(sites + [s])
  {
    if DistinctIds(sites) && IdFresh(sites, s.id) {
      var r := sites + [s];
      forall i, j | 0 <= i < j < |r| ensures r[i].id != r[j].id {
        assert r[i] == sites[i];
        if j < |sites| {
          assert r[j] == sites[j];
        }
      }
    }
  }

  const FingerprintNumber := "NTC-2025-8849-VX"
  const ProfileBadges := ["First Site", "Active Creator", "Community Member"]

  /** The props the dashboard passes to the fingerprint card. */
  function ProfileCard(userName: string, plan: FingerprintCard.Plan, sites: seq<Site>): (p: FingerprintCard.CardProps)
    ensures var c := FingerprintCard.WithDefaults(p);
      && c.totalSites == |sites| && c.totalVisitors == TotalVisitors(sites)
      && c.membershipTier == FingerprintCard.Gold && c.neonScore == 850 && c.isActive
      && c.verificationCode == "NTC-8849-VX" && c.userName == userName && c.planLevel == plan
  {
    FingerprintCard.CardProps(userName, FingerprintNumber, plan, "Jan 2025", ProfileBadges,
      Some("NTC-8849-VX"), Some(|sites|), Some(TotalVisitors(sites)),
      Some(FingerprintCard.Gold), Some(850), Some(true))
  }

  // ---------------------------------------------------------------------------
  // Links and labels

  const ShareOrigin := "https://neontech.com"

  /** The path the open button targets, shown for published sites only. */
  function OpenPath(s: Site): (r: Option<string>)
    ensures r.Some? <==> s.published
    ensures r.Some? ==> r.value == "/s/" + s.slug
  {
    if s.published then Some("/s/" + s.slug) else None
  }

  /** The link the share button copies, shown for published sites only. */
  function ShareLink(s: Site): (r: Option<string>)
    ensures r.Some? <==> s.published
    ensures r.Some? ==> r.value == ShareOrigin + "/s/" + s.slug
  {
    if s.published then Some(ShareOrigin + "/s/" + s.slug) else None
  }

  /** The share link is the open path on the public origin, and it names the site's slug exactly. */
  lemma ShareLinkMatchesOpenPath(s: Site, t: Site)
    requires s.published && t.published
    ensures ShareLink(s).value == ShareOrigin + OpenPath(s).value
    ensures ShareLink(s) == ShareLink(t) <==> s.slug == t.slug
  {
    assert ShareOrigin + "/s/" + s.slug == (ShareOrigin + "/s/") + s.slug;
    PrefixCancel(ShareOrigin + "/s/", s.slug, t.slug);
  }

  /** The "Published" column of the site table. */
  function PublishedLabel(s: Site): (r: string)
    ensures r == "Yes" <==> s.published
    ensures r == "No" <==> !s.published
  {
    DifferAt("Yes", "No", 0);
    if s.published then "Yes" else "No"
  }

  /**
   * The builder is shown only when both editing ids are non-empty and a record has the
   * editing site id; it is the first such record.
   */
  function EditorTarget(sites: seq<Site>, editingTemplateId: Option<string>, editingSiteId: Option<string>): (r: Option<Site>)
    ensures r.Some? ==> (editingTemplateId.Some? && editingTemplateId.value != ""
      && editingSiteId.Some? && editingSiteId.value != ""
      && r.value in sites && r.value.id == editingSiteId.value)
    ensures r.None? <==> (editingTemplateId.None? || editingTemplateId.value == ""
      || editingSiteId.None? || editingSiteId.value == "" || IdFresh(sites, editingSiteId.value))
    ensures r.Some? ==> exists i :: (0 <= i < |sites| && sites[i] == r.value
      && forall j :: 0 <= j < i ==> sites[j].id != r.value.id)
  {
    if editingTemplateId.Some? && editingTemplateId.value != "" && editingSiteId.Some? && editingSiteId.value != "" then
      var id := editingSiteId.value;
      var r := FindFirst(sites, (s: Site) => s.id == id);
      assert r.None? <==> IdFresh(sites, id) by {
        assert r.None? <==> forall i :: 0 <= i < |sites| ==> sites[i].id != id;
      }
      assert r.Some? ==> exists i :: FirstMatchAt(sites, (s: Site) => s.id == id, i) && sites[i] == r.value;
      r
    else None
  }

  /** The document the builder opens with: seeded from the editing template, named after the site. */
  function BuilderDocument(catalog: seq<Editor.Template>, sites: seq<Site>, editingTemplateId: Option<string>, editingSiteId: Option<string>): (r: Option<Editor.SiteData>)
    ensures var t := EditorTarget(sites, editingTemplateId, editingSiteId);
      && (r.Some? <==> t.Some?)
      && (r.Some? ==> r.value == Editor.InitialSiteData(catalog, editingTemplateId.value, t.value.name))
  {
    var t := EditorTarget(sites, editingTemplateId, editingSiteId);
    if t.Some? then Some(Editor.InitialSiteData(catalog, editingTemplateId.value, t.value.name)) else None
  }

  /**
   * Saving straight after the builder opens keeps the name, takes the editing template, and
   * clears `published` (the builder starts unpublished) while the status stays as it was: a
   * published, active site comes back active but unpublished.
   */
  lemma SaveUnchangedDocument(catalog: seq<Editor.Template>, fp: Site, templateId: string)
    ensures var r := Saved(fp, Editor.InitialSiteData(catalog, templateId, fp.name));
      r.name == fp.name && r.template == templateId && !r.published && r.status == fp.status
  {
  }

  // ---------------------------------------------------------------------------
  // The component state

  class Dashboard {
    var fingerprints: seq<Site>
    var editingSiteId: Option<string>
    var editingTemplateId: Option<string>
    var newSiteName: string
    var showCreateSiteModal: bool

    /** The site records keep distinct ids. */
    predicate Valid()
      reads this
    {
      DistinctIds(fingerprints)
    }

    constructor (initial: seq<Site>)
      ensures fingerprints == initial && editingSiteId.None? && editingTemplateId.None?
      ensures newSiteName == "" && !showCreateSiteModal
      ensures Valid() <==> DistinctIds(initial)
    {
      fingerprints := initial;
      editingSiteId := None;
      editingTemplateId := None;
      newSiteName := "";
      showCreateSiteModal := false;
    }

    method SetNewSiteName(name: string)
      modifies this`newSiteName
      ensures newSiteName == name
    {
      newSiteName := name;
    }

    method OpenCreateModal()
      modifies this`showCreateSiteModal
      ensures showCreateSiteModal
    {
      showCreateSiteModal := true;
    }

    /** The template gallery's choice of template for the next site. */
    method PickTemplate(templateId: string)
      modifies this`editingTemplateId
      ensures editingTemplateId == Some(templateId)
    {
      editingTemplateId := Some(templateId);
    }

    /** The figures the fingerprint card shows for this user. */
    function Card(userName: string, plan: FingerprintCard.Plan): (p: FingerprintCard.CardProps)
      reads this
      ensures FingerprintCard.WithDefaults(p).totalSites == |fingerprints|
      ensures FingerprintCard.WithDefaults(p).totalVisitors == TotalVisitors(fingerprints)
      ensures FingerprintCard.WithDefaults(p).userName == userName && FingerprintCard.WithDefaults(p).planLevel == plan
    {
      ProfileCard(userName, plan, fingerprints)
    }

    /**
     * `handleCreateSite`: a blank name changes nothing; otherwise one draft record is
     * appended, it becomes the editing site, the modal closes and the name is cleared.
     */
    method CreateSite(id: string) returns (created: bool)
      modifies this`fingerprints, this`editingSiteId, this`showCreateSiteModal, this`newSiteName
      ensures created <==> !IsBlank(old(newSiteName))
      ensures !created ==> (fingerprints == old(fingerprints) && editingSiteId == old(editingSiteId)
        && showCreateSiteModal == old(showCreateSiteModal) && newSiteName == old(newSiteName))
      ensures created ==> (fingerprints == old(fingerprints) + [NewSite(id, old(newSiteName), editingTemplateId)]
        && editingSiteId == Some(id) && !showCreateSiteModal && newSiteName == "")
      ensures old(Valid()) && IdFresh(old(fingerprints), id) ==> Valid()
    {
      if IsBlank(newSiteName) {
        return false;
      }
      var site := NewSite(id, newSiteName, editingTemplateId);
      AppendFreshKeepsDistinct(fingerprints, site);
      fingerprints := fingerprints + [site];
      editingSiteId := Some(id);
      showCreateSiteModal := false;
      newSiteName := "";
      return true;
    }

    /** `handleSaveSite`: merge the editor data into the editing site's record, then stop editing. */
    method SaveSite(d: Editor.SiteData)
      modifies this`fingerprints, this`editingSiteId, this`editingTemplateId
      ensures fingerprints == MergeInto(old(fingerprints), old(editingSiteId), d, false)
      ensures editingSiteId.None? && editingTemplateId.None?
      ensures old(Valid()) ==> Valid()
    {
      fingerprints := MergeInto(fingerprints, editingSiteId, d, false);
      editingTemplateId := None;
      editingSiteId := None;
    }

    /** `handlePublishSite`: the same merge, forcing the record published and active, then stop editing. */
    method PublishSite(d: Editor.SiteData)
      modifies this`fingerprints, this`editingSiteId, this`editingTemplateId
      ensures fingerprints == MergeInto(old(fingerprints), old(editingSiteId), d, true)
      ensures editingSiteId.None? && editingTemplateId.None?
      ensures old(Valid()) ==> Valid()
    {
      fingerprints := MergeInto(fingerprints, editingSiteId, d, true);
      editingTemplateId := None;
      editingSiteId := None;
    }

    /** The builder's back button: stop editing without touching the records. */
    method Back()
      modifies this`editingSiteId, this`editingTemplateId
      ensures editingSiteId.None? && editingTemplateId.None?
    {
      editingTemplateId := None;
      editingSiteId := None;
    }
  }
}
