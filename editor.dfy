/**
 * The website builder (src/components/WebsiteBuilder.tsx): a site document made of an
 * ordered list of pages, each an ordered list of typed, positioned elements, together
 * with the editor state around it (selected page and element, preview mode, pending
 * generations). Every change to the document is a pure transition on `SiteData`; the
 * class `Builder` holds the component state and applies those transitions.
 */
module Editor {
  import opened Options
  import opened Strings
  import opened Seqs

  // ---------------------------------------------------------------------------
  // Data model

  datatype ElementType = Text | Image | Button | Section | Link

  /** The optional style keys of an element; `None` is an absent key. */
  datatype Styles = Styles(
    fontSize: Option<string>,
    color: Option<string>,
    backgroundColor: Option<string>,
    padding: Option<string>,
    margin: Option<string>,
    borderRadius: Option<string>)

  datatype Point = Point(x: int, y: int)
  datatype Size = Size(width: int, height: int)

  datatype Element = Element(
    id: string,
    kind: ElementType,
    content: string,
    styles: Styles,
    position: Point,
    size: Size)

  datatype Seo = Seo(title: string, description: string, keywords: string)

  datatype Page = Page(id: string, name: string, elements: seq<Element>, seo: Seo)

  datatype ColorScheme = ColorScheme(name: string, primary: string, secondary: string, accent: string)

  datatype Theme = Theme(colors: ColorScheme, font: string)

  /** The document the editor edits and hands to the save and publish callbacks. */
  datatype SiteData = SiteData(
    name: string,
    template: string,
    pages: seq<Page>,
    theme: Theme,
    published: bool,
    customCSS: string,
    customJS: string)

  /** A catalog entry: its page names in order, its colour schemes and its fonts. */
  datatype Template = Template(id: string, pages: seq<string>, colorSchemes: seq<ColorScheme>, fonts: seq<string>)

  datatype PreviewMode = Desktop | Tablet | Mobile

  /** `Partial<PageElement>`: the keys present in an update; `None` is a key left out. */
  datatype ElementUpdate = ElementUpdate(
    id: Option<string>,
    kind: Option<ElementType>,
    content: Option<string>,
    styles: Option<Styles>,
    position: Option<Point>,
    size: Option<Size>)

  /** A generation scheduled by the generator button: the page and the inputs it captured. */
  datatype Generation = Generation(target: int, businessName: string, businessDescription: string, businessLinks: string)

  /** No two elements share an id. */
  predicate DistinctIds(es: seq<Element>)
  {
    forall i, j :: 0 <= i < j < |es| ==> es[i].id != es[j].id
  }

  predicate HasId(es: seq<Element>, id: string)
  {
    exists i :: 0 <= i < |es| && es[i].id == id
  }

  predicate DistinctPageIds(ps: seq<Page>)
  {
    forall i, j :: 0 <= i < j < |ps| ==> ps[i].id != ps[j].id
  }

  const NoStyles := Styles(None, None, None, None, None, None)

  // ---------------------------------------------------------------------------
  // Template seeding

  /** The body text of a page's default content element. */
  function DefaultContent(pageName: string): (r: string)
    ensures pageName == "Home" ==> r == HomeText
    ensures pageName == "About" ==> r == AboutText
    ensures pageName == "Services" ==> r == ServicesText
    ensures pageName == "Portfolio" ==> r == PortfolioText
    ensures pageName == "Contact" ==> r == ContactText
    ensures pageName !in {"Home", "About", "Services", "Portfolio", "Contact"} ==>
      r == "Welcome to our " + pageName + " page. Discover what makes us different."
  {
    if pageName == "Home" then HomeText
    else if pageName == "About" then AboutText
    else if pageName == "Services" then ServicesText
    else if pageName == "Portfolio" then PortfolioText
    else if pageName == "Contact" then ContactText
    else "Welcome to our " + pageName + " page. Discover what makes us different."
  }

  const HomeText := "Experience the future of digital presence with Neon Tech. We craft sophisticated digital fingerprints that command respect and inspire trust."
  const AboutText := "We are digital artisans, crafting bespoke experiences that elevate your brand above the ordinary. Every pixel serves a purpose."
  const ServicesText := "From brand identity to digital flagships, we deliver excellence that speaks to your audience's highest aspirations."
  const PortfolioText := "Witness the transformation of vision into reality. Each project represents our commitment to uncompromising quality."
  const ContactText := "Ready to begin your digital transformation? Let's create something extraordinary together."

  function DefaultHeader(pageName: string): Element
  {
    Element(pageName + "-header", Text,
      if pageName == "Home" then "Welcome to Our Digital Experience" else pageName,
      NoStyles.(fontSize := Some("3rem"), color := Some("#00E5FF"), padding := Some("2rem")),
      Point(50, 50), Size(600, 100))
  }

  function DefaultBody(pageName: string): Element
  {
    Element(pageName + "-content", Text, DefaultContent(pageName),
      NoStyles.(fontSize := Some("1.2rem"), color := Some("#FFFFFF"), padding := Some("1rem")),
      Point(50, 200), Size(800, 200))
  }

  const CtaButton := Element("cta-button", Button, "Get Started",
    NoStyles.(backgroundColor := Some("#00E5FF"), color := Some("#000000"), padding := Some("1rem 2rem"), borderRadius := Some("0.5rem")),
    Point(50, 450), Size(200, 60))

  const ContactForm := Element("contact-form", Section, "Contact Form",
    NoStyles.(backgroundColor := Some("rgba(255,255,255,0.1)"), padding := Some("2rem"), borderRadius := Some("1rem")),
    Point(50, 450), Size(600, 400))

  /**
   * `getDefaultElements`: every page starts with its header and content text; "Home" adds
   * the call-to-action button and "Contact" the contact form.
   */
  function DefaultElements(pageName: string): (r: seq<Element>)
    ensures |r| == if pageName == "Home" || pageName == "Contact" then 3 else 2
    ensures r[0].id == pageName + "-header" && r[0].kind == Text
    ensures r[0].content == if pageName == "Home" then "Welcome to Our Digital Experience" else pageName
    ensures r[1].id == pageName + "-content" && r[1].kind == Text && r[1].content == DefaultContent(pageName)
    ensures pageName == "Home" ==> r[2].id == "cta-button" && r[2].kind == Button
    ensures pageName == "Contact" ==> r[2].id == "contact-form" && r[2].kind == Section
  {
    var base := [DefaultHeader(pageName), DefaultBody(pageName)];
    if pageName == "Home" then base + [CtaButton]
    else if pageName == "Contact" then base + [ContactForm]
    else base
  }

  /** The seeded elements of a page have pairwise distinct ids. */
  lemma {:induction false} DefaultElementsDistinct(pageName: string)
    ensures DistinctIds(DefaultElements(pageName))
  {
    var r := DefaultElements(pageName);
    DifferAt("-header", "-content", 1);
    PrefixCancel(pageName, "-header", "-content");
    if pageName == "Home" {
      DifferAt(r[0].id, r[2].id, 0);
      DifferAt(r[1].id, r[2].id, 0);
    } else if pageName == "Contact" {
      DifferAt(r[0].id, r[2].id, 0);
      DifferAt(r[1].id, r[2].id, 0);
    }
  }

  /** The `seo` record of a seeded page: title, description and keywords built from the two names. */
  function SeoFor(pageName: string, siteName: string): (seo: Seo)
    ensures seo.title == pageName + " - " + siteName
    ensures seo.description == pageName + " page for " + siteName
    ensures seo.keywords == siteName + ", " + ToLower(pageName) + ", neon tech"
    ensures |seo.keywords| == |siteName| + |pageName| + 13
  {
    Seo(pageName + " - " + siteName,
        pageName + " page for " + siteName,
        siteName + ", " + ToLower(pageName) + ", neon tech")
  }

  function InitialPage(index: nat, pageName: string, siteName: string): Page
  {
    Page("page-" + NatToString(index), pageName, DefaultElements(pageName), SeoFor(pageName, siteName))
  }

  const DefaultColors := ColorScheme("Default", "#00E5FF", "#50207A", "#D6B9FC")

  /** `NEON_TEMPLATES.find(t => t.id === templateId)` over a catalog given as input. */
  function FindTemplate(catalog: seq<Template>, templateId: string): (r: Option<Template>)
    ensures r.Some? ==> r.value in catalog && r.value.id == templateId
    ensures r.None? <==> forall t :: t in catalog ==> t.id != templateId
    ensures r.Some? ==> exists i :: (0 <= i < |catalog| && catalog[i] == r.value
      && forall j :: 0 <= j < i ==> catalog[j].id != templateId)
  {
    var r := FindFirst(catalog, (t: Template) => t.id == templateId);
    assert r.Some? ==> exists i :: FirstMatchAt(catalog, (t: Template) => t.id == templateId, i) && catalog[i] == r.value;
    r
  }

  /** The first colour scheme and the first font, each falling back when missing (or, for the font, empty). */
  function InitialTheme(template: Option<Template>): (th: Theme)
    ensures template.Some? && |template.value.colorSchemes| > 0 ==> th.colors == template.value.colorSchemes[0]
    ensures !(template.Some? && |template.value.colorSchemes| > 0) ==> th.colors == DefaultColors
    ensures template.Some? && |template.value.fonts| > 0 && template.value.fonts[0] != "" ==> th.font == template.value.fonts[0]
    ensures !(template.Some? && |template.value.fonts| > 0 && template.value.fonts[0] != "") ==> th.font == "Inter"
  {
    Theme(
      if template.Some? && |template.value.colorSchemes| > 0 then template.value.colorSchemes[0] else DefaultColors,
      if template.Some? && |template.value.fonts| > 0 && template.value.fonts[0] != "" then template.value.fonts[0] else "Inter")
  }

  /** The document the builder starts from: one seeded page per template page name, in order. */
  function InitialSiteData(catalog: seq<Template>, templateId: string, siteName: string): (d: SiteData)
    ensures var t := FindTemplate(catalog, templateId);
      && |d.pages| == (if t.Some? then |t.value.pages| else 0)
      && (forall i :: 0 <= i < |d.pages| ==>
            && d.pages[i].id == "page-" + NatToString(i)
            && d.pages[i].name == t.value.pages[i]
            && d.pages[i].elements == DefaultElements(t.value.pages[i])
            && d.pages[i].seo == SeoFor(t.value.pages[i], siteName))
      && d.theme == InitialTheme(t)
    ensures d.name == siteName && d.template == templateId
    ensures !d.published && d.customCSS == "" && d.customJS == ""
  {
    var t := FindTemplate(catalog, templateId);
    var names := if t.Some? then t.value.pages else [];
    SiteData(siteName, templateId,
      seq(|names|, i requires 0 <= i < |names| => InitialPage(i, names[i], siteName)),
      InitialTheme(t), false, "", "")
  }

  /** The seeded pages have pairwise distinct ids, and so do the elements of each. */
  lemma {:induction false} InitialIdsDistinct(catalog: seq<Template>, templateId: string, siteName: string)
    ensures var d := InitialSiteData(catalog, templateId, siteName);
      DistinctPageIds(d.pages) && forall i :: 0 <= i < |d.pages| ==> DistinctIds(d.pages[i].elements)
  {
    var d := InitialSiteData(catalog, templateId, siteName);
    forall i, j | 0 <= i < j < |d.pages| ensures d.pages[i].id != d.pages[j].id {
      if d.pages[i].id == d.pages[j].id {
        PrefixCancel("page-", NatToString(i), NatToString(j));
        NatToStringInjective(i, j);
      }
    }
    forall i | 0 <= i < |d.pages| ensures DistinctIds(d.pages[i].elements) {
      DefaultElementsDistinct(d.pages[i].name);
    }
  }

  // ---------------------------------------------------------------------------
  // Element operations

  /** The id of an added element, from the clock reading `now` the caller supplies. */
  function AddedId(now: nat): string
  {
    "element-" + NatToString(now)
  }

  /** Elements added at different clock readings get different ids. */
  lemma AddedIdInjective(m: nat, n: nat)
    ensures AddedId(m) == AddedId(n) <==> m == n
  {
    if AddedId(m) == AddedId(n) {
      PrefixCancel("element-", NatToString(m), NatToString(n));
      NatToStringInjective(m, n);
    }
  }

  /** The element `handleAddElement` builds for a type at clock reading `now`. */
  function NewElement(now: nat, kind: ElementType): (e: Element)
    ensures e.id == AddedId(now) && e.kind == kind
    ensures e.position == Point(100, 100) && e.size.width == 200
    ensures e.size.height == match kind case Text => 50 case Image => 200 case _ => 100
    ensures e.content == match kind
      case Text => "New Text Element"
      case Button => "Click Me"
      case Image => "/placeholder-image.jpg"
      case _ => "New Element"
    ensures e.styles.padding == Some("1rem") && e.styles.margin.None?
    ensures e.styles.fontSize == if kind == Text then Some("1rem") else None
    ensures e.styles.color.Some? <==> kind == Text || kind == Button
    ensures e.styles.color.Some? ==> e.styles.color.value == "#FFFFFF"
    ensures e.styles.backgroundColor ==
      (match kind case Button => Some("#00E5FF") case Section => Some("rgba(255,255,255,0.1)") case _ => None)
    ensures e.styles.borderRadius == if kind == Button || kind == Section then Some("0.5rem") else None
  {
    Element(AddedId(now), kind,
      if kind == Text then "New Text Element" else if kind == Button then "Click Me"
      else if kind == Image then "/placeholder-image.jpg" else "New Element",
      Styles(
        if kind == Text then Some("1rem") else None,
        if kind == Text || kind == Button then Some("#FFFFFF") else None,
        if kind == Button then Some("#00E5FF") else if kind == Section then Some("rgba(255,255,255,0.1)") else None,
        Some("1rem"),
        None,
        if kind == Button || kind == Section then Some("0.5rem") else None),
      Point(100, 100),
      Size(200, if kind == Text then 50 else if kind == Image then 200 else 100))
  }

  /** The page at `index` replaced by `p`; an index outside the list changes nothing. */
  function WithPage(pages: seq<Page>, index: int, p: Page): (r: seq<Page>)
    ensures |r| == |pages|
    ensures forall i :: 0 <= i < |pages| && i != index ==> r[i] == pages[i]
    ensures 0 <= index < |pages| ==> r[index] == p
  {
    if 0 <= index < |pages| then pages[index := p] else pages
  }

  /** Append `e` to the elements of page `index` (`handleAddElement`'s page map). */
  function AddElementTo(d: SiteData, index: int, e: Element): (r: SiteData)
    ensures r.(pages := d.pages) == d && |r.pages| == |d.pages|
    ensures forall i :: 0 <= i < |d.pages| && i != index ==> r.pages[i] == d.pages[i]
    ensures 0 <= index < |d.pages| ==>
      var before, after := d.pages[index], r.pages[index];
      && after.(elements := before.elements) == before
      && |after.elements| == |before.elements| + 1
      && after.elements[..|before.elements|] == before.elements
      && after.elements[|before.elements|] == e
    ensures !(0 <= index < |d.pages|) ==> r == d
  {
    if 0 <= index < |d.pages| then
      var p := d.pages[index];
      assert (p.elements + [e])[..|p.elements|] == p.elements;
      d.(pages := WithPage(d.pages, index, p.(elements := p.elements + [e])))
    else d
  }

  /** Adding an element whose id is not yet on the page keeps the page's ids distinct. */
  lemma {:induction false} AddKeepsDistinct(d: SiteData, index: int, e: Element)
    requires 0 <= index < |d.pages|
    requires DistinctIds(d.pages[index].elements) && !HasId(d.pages[index].elements, e.id)
    ensures DistinctIds(AddElementTo(d, index, e).pages[index].elements)
  {
    var before, after := d.pages[index].elements, AddElementTo(d, index, e).pages[index].elements;
    forall i, j | 0 <= i < j < |after| ensures after[i].id != after[j].id {
      assert after[i] == before[i];
      if j < |before| {
        assert after[j] == before[j];
      }
    }
  }

  /** `elements.filter(el => el.id !== id)`. */
  function RemoveId(es: seq<Element>, id: string): (r: seq<Element>)
    ensures IsSubsequence(r, es)
    ensures forall e :: e in r ==> e in es && e.id != id
    ensures forall e :: e in es && e.id != id ==> e in r
    ensures forall e :: e in es ==> multiset(r)[e] == if e.id != id then multiset(es)[e] else 0
    ensures !HasId(es, id) ==> r == es
  {
    FilterIsSubsequence(es, (e: Element) => e.id != id);
    FilterCounts(es, (e: Element) => e.id != id);
    Filter(es, (e: Element) => e.id != id)
  }

  /** Remove every element with `id` from page `index` (`handleDeleteElement`'s page map). */
  function DeleteElementFrom(d: SiteData, index: int, id: string): (r: SiteData)
    ensures r.(pages := d.pages) == d && |r.pages| == |d.pages|
    ensures forall i :: 0 <= i < |d.pages| && i != index ==> r.pages[i] == d.pages[i]
    ensures 0 <= index < |d.pages| ==>
      var before, after := d.pages[index], r.pages[index];
      && after.(elements := before.elements) == before
      && after.elements == RemoveId(before.elements, id)
    ensures !(0 <= index < |d.pages|) ==> r == d
  {
    if 0 <= index < |d.pages| then
      var p := d.pages[index];
      d.(pages := WithPage(d.pages, index, p.(elements := RemoveId(p.elements, id))))
    else d
  }

  /** A second delete of the same id changes nothing. */
  lemma {:induction false} DeleteTwice(d: SiteData, index: int, id: string)
    ensures DeleteElementFrom(DeleteElementFrom(d, index, id), index, id) == DeleteElementFrom(d, index, id)
  {
    if 0 <= index < |d.pages| {
      var es := d.pages[index].elements;
      var once := RemoveId(es, id);
      FilterIdempotent(es, (e: Element) => e.id != id);
      assert RemoveId(once, id) == once;
      var d1 := DeleteElementFrom(d, index, id);
      var d2 := DeleteElementFrom(d1, index, id);
      assert d2.pages[index] == d1.pages[index];
      assert d2.pages == d1.pages;
    }
  }

  /** Deleting keeps ids distinct and leaves no element with the deleted id. */
  lemma {:induction false} DeleteKeepsDistinct(es: seq<Element>, id: string)
    requires DistinctIds(es)
    ensures DistinctIds(RemoveId(es, id)) && !HasId(RemoveId(es, id), id)
  {
    var p := (e: Element) => e.id != id;
    FilterKeepsDistinct(es, p);
    var r := RemoveId(es, id);
    assert forall i :: 0 <= i < |r| ==> r[i] in r;
  }

  lemma {:induction false} FilterKeepsDistinct(es: seq<Element>, p: Element -> bool)
    requires DistinctIds(es)
    ensures DistinctIds(Filter(es, p))
  {
    if es != [] {
      DistinctTail(es);
      FilterKeepsDistinct(es[1..], p);
      var rest := Filter(es[1..], p);
      if p(es[0]) {
        forall k | 0 <= k < |rest| ensures rest[k].id != es[0].id {
          assert rest[k] in rest;
          var m :| 0 <= m < |es[1..]| && es[1..][m] == rest[k];
          assert es[m + 1] == rest[k];
        }
        DistinctCons(es[0], rest);
      }
    }
  }

  lemma DistinctTail(es: seq<Element>)
    requires es != [] && DistinctIds(es)
    ensures DistinctIds(es[1..])
  {
    forall i, j | 0 <= i < j < |es[1..]| ensures es[1..][i].id != es[1..][j].id {
      assert es[1..][i] == es[i + 1] && es[1..][j] == es[j + 1];
    }
  }

  lemma DistinctCons(e: Element, rest: seq<Element>)
    requires DistinctIds(rest)
    requires forall k :: 0 <= k < |rest| ==> rest[k].id != e.id
    ensures DistinctIds([e] + rest)
  {
    var r := [e] + rest;
    forall i, j | 0 <= i < j < |r| ensures r[i].id != r[j].id {
      if i == 0 {
        assert r[j] == rest[j - 1];
      } else {
        assert r[i] == rest[i - 1] && r[j] == rest[j - 1];
      }
    }
  }

  /** `{ ...el, ...updates }`: the keys present in the update win, the others keep their values. */
  function Merge(el: Element, u: ElementUpdate): (r: Element)
    ensures u.id.None? ==> r.id == el.id
    ensures u.kind.None? ==> r.kind == el.kind
    ensures u.content.None? ==> r.content == el.content
    ensures u.styles.None? ==> r.styles == el.styles
    ensures u.position.None? ==> r.position == el.position
    ensures u.size.None? ==> r.size == el.size
    ensures u.id.Some? ==> r.id == u.id.value
    ensures u.kind.Some? ==> r.kind == u.kind.value
    ensures u.content.Some? ==> r.content == u.content.value
    ensures u.styles.Some? ==> r.styles == u.styles.value
    ensures u.position.Some? ==> r.position == u.position.value
    ensures u.size.Some? ==> r.size == u.size.value
  {
    Element(u.id.GetOr(el.id), u.kind.GetOr(el.kind), u.content.GetOr(el.content),
      u.styles.GetOr(el.styles), u.position.GetOr(el.position), u.size.GetOr(el.size))
  }

  /** `elements.map(el => el.id === id ? { ...el, ...updates } : el)`. */
  function UpdateMatching(es: seq<Element>, id: string, u: ElementUpdate): (r: seq<Element>)
    ensures |r| == |es|
    ensures forall k :: 0 <= k < |es| && es[k].id == id ==> r[k] == Merge(es[k], u)
    ensures forall k :: 0 <= k < |es| && es[k].id != id ==> r[k] == es[k]
    ensures !HasId(es, id) ==> r == es
  {
    seq(|es|, k requires 0 <= k < |es| => if es[k].id == id then Merge(es[k], u) else es[k])
  }

  /** Merge `u` into the elements of page `index` whose id is `id` (`handleUpdateElement`'s page map). */
  function UpdateElementIn(d: SiteData, index: int, id: string, u: ElementUpdate): (r: SiteData)
    ensures r.(pages := d.pages) == d && |r.pages| == |d.pages|
    ensures forall i :: 0 <= i < |d.pages| && i != index ==> r.pages[i] == d.pages[i]
    ensures 0 <= index < |d.pages| ==>
      var before, after := d.pages[index], r.pages[index];
      && after.(elements := before.elements) == before
      && after.elements == UpdateMatching(before.elements, id, u)
    ensures !(0 <= index < |d.pages|) || !HasId(d.pages[index].elements, id) ==> r == d
  {
    if 0 <= index < |d.pages| then
      var p := d.pages[index];
      var r := d.(pages := WithPage(d.pages, index, p.(elements := UpdateMatching(p.elements, id, u))));
      assert !HasId(p.elements, id) ==> r.pages == d.pages;
      r
    else d
  }

  /** The update the content field of the properties panel sends. */
  function ContentEdit(v: string): ElementUpdate
  {
    ElementUpdate(None, None, Some(v), None, None, None)
  }

  /** The update the font-size field sends: the caller copies every style and sets one key. */
  function FontSizeEdit(el: Element, v: string): ElementUpdate
  {
    ElementUpdate(None, None, None, Some(el.styles.(fontSize := Some(v))), None, None)
  }

  /** The update the colour field sends. */
  function ColorEdit(el: Element, v: string): ElementUpdate
  {
    ElementUpdate(None, None, None, Some(el.styles.(color := Some(v))), None, None)
  }

  /** The value the font-size field shows: the element's own, or "1rem" when absent or empty. */
  function ShownFontSize(el: Element): (r: string)
    ensures el.styles.fontSize.Some? && el.styles.fontSize.value != "" ==> r == el.styles.fontSize.value
    ensures el.styles.fontSize.None? || el.styles.fontSize.value == "" ==> r == "1rem"
  {
    if el.styles.fontSize.Some? && el.styles.fontSize.value != "" then el.styles.fontSize.value else "1rem"
  }

  /** The value the colour field shows: the element's own, or "#FFFFFF" when absent or empty. */
  function ShownColor(el: Element): (r: string)
    ensures el.styles.color.Some? && el.styles.color.value != "" ==> r == el.styles.color.value
    ensures el.styles.color.None? || el.styles.color.value == "" ==> r == "#FFFFFF"
  {
    if el.styles.color.Some? && el.styles.color.value != "" then el.styles.color.value else "#FFFFFF"
  }

  /** A content edit changes the content and nothing else. */
  lemma ContentEditOnlyContent(el: Element, v: string)
    ensures Merge(el, ContentEdit(v)) == el.(content := v)
  {
  }

  /** The panel's style edits change one style key; the merge of the others is the caller's copy. */
  lemma StyleEditsKeepOtherKeys(el: Element, v: string)
    ensures Merge(el, FontSizeEdit(el, v)) == el.(styles := el.styles.(fontSize := Some(v)))
    ensures Merge(el, ColorEdit(el, v)) == el.(styles := el.styles.(color := Some(v)))
  {
  }

  /** An update of a style key that does not copy the others first drops them: styles are replaced whole. */
  lemma StylesReplacedWhole(el: Element, s: Styles)
    ensures Merge(el, ElementUpdate(None, None, None, Some(s), None, None)).styles == s
  {
  }

  /** The properties panel's lookup: the first element with the selected id, as `Array.find` returns it. */
  function FindElement(es: seq<Element>, id: string): (r: Option<Element>)
    ensures r.None? <==> !HasId(es, id)
    ensures r.Some? ==> r.value in es && r.value.id == id
    ensures r.Some? ==> exists i :: 0 <= i < |es| && es[i] == r.value && forall j :: 0 <= j < i ==> es[j].id != id
  {
    var r := FindFirst(es, (e: Element) => e.id == id);
    assert r.Some? ==> exists i :: FirstMatchAt(es, (e: Element) => e.id == id, i) && es[i] == r.value;
    r
  }

  // ---------------------------------------------------------------------------
  // The generator

  const DescriptionSuffix := " - Crafting excellence in digital experiences"

  function GeneratedHeader(businessName: string): Element
  {
    Element("ai-header", Text, "Welcome to " + businessName,
      NoStyles.(fontSize := Some("3.5rem"), color := Some("#00E5FF"), padding := Some("2rem")),
      Point(50, 50), Size(800, 120))
  }

  /** The description block; an empty description (and only an empty one) falls back to a fixed sentence. */
  function GeneratedDescription(businessName: string, businessDescription: string): Element
  {
    Element("ai-description", Text,
      if businessDescription != "" then businessDescription else businessName + DescriptionSuffix,
      NoStyles.(fontSize := Some("1.3rem"), color := Some("#FFFFFF"), padding := Some("1rem")),
      Point(50, 200), Size(900, 150))
  }

  function LinkId(index: nat): string
  {
    "ai-link-" + NatToString(index)
  }

  /** The link element for the `index`-th link piece. */
  function LinkElement(index: nat, link: string): Element
  {
    Element(LinkId(index), Link, link,
      NoStyles.(color := Some("#D6B9FC"), padding := Some("0.5rem")),
      Point(50 + index * 200, 400), Size(180, 40))
  }

  /**
   * The links the generator emits: nothing when the input trims to empty, otherwise every
   * comma-separated piece trimmed, empty pieces included.
   */
  function LinkPieces(businessLinks: string): (r: seq<string>)
    ensures Trim(businessLinks) == "" ==> r == []
    ensures Trim(businessLinks) != "" ==>
      |r| == CountChar(businessLinks, ',') + 1 && r == TrimAll(Split(businessLinks, ','))
  {
    if Trim(businessLinks) == "" then []
    else
      SplitCount(businessLinks, ',');
      TrimAll(Split(businessLinks, ','))
  }

  /** The two elements every generation starts with. */
  function FixedGenerated(businessName: string, businessDescription: string): seq<Element>
  {
    [GeneratedHeader(businessName), GeneratedDescription(businessName, businessDescription)]
  }

  /** One link element per piece, numbered from zero. */
  function LinkElements(pieces: seq<string>): seq<Element>
  {
    seq(|pieces|, i requires 0 <= i < |pieces| => LinkElement(i, pieces[i]))
  }

  /** The elements a generation produces: header, description, then one link per piece. */
  function GeneratedElements(businessName: string, businessDescription: string, businessLinks: string): seq<Element>
  {
    FixedGenerated(businessName, businessDescription) + LinkElements(LinkPieces(businessLinks))
  }

  /** What a generation produces, element by element. */
  lemma GeneratedShape(businessName: string, businessDescription: string, businessLinks: string)
    ensures var r, pieces := GeneratedElements(businessName, businessDescription, businessLinks), LinkPieces(businessLinks);
      && |r| == 2 + |pieces|
      && r[0].id == "ai-header" && r[0].kind == Text && r[0].content == "Welcome to " + businessName
      && r[1].id == "ai-description" && r[1].kind == Text
      && r[1].content == (if businessDescription != "" then businessDescription else businessName + DescriptionSuffix)
      && forall i :: 0 <= i < |pieces| ==>
           && r[2 + i].id == LinkId(i) && r[2 + i].kind == Link && r[2 + i].content == pieces[i]
           && r[2 + i].position == Point(50 + 200 * i, 400)
  {
    ShapeFor(businessName, businessDescription, LinkPieces(businessLinks));
  }

  /** `GeneratedShape` for any list of link pieces. */
  lemma ShapeFor(businessName: string, businessDescription: string, pieces: seq<string>)
    ensures var r := FixedGenerated(businessName, businessDescription) + LinkElements(pieces);
      && |r| == 2 + |pieces|
      && r[0].id == "ai-header" && r[0].kind == Text && r[0].content == "Welcome to " + businessName
      && r[1].id == "ai-description" && r[1].kind == Text
      && r[1].content == (if businessDescription != "" then businessDescription else businessName + DescriptionSuffix)
      && forall i :: 0 <= i < |pieces| ==>
           && r[2 + i].id == LinkId(i) && r[2 + i].kind == Link && r[2 + i].content == pieces[i]
           && r[2 + i].position == Point(50 + 200 * i, 400)
  {
    var fixed := FixedGenerated(businessName, businessDescription);
    var r := fixed + LinkElements(pieces);
    assert r[0] == GeneratedHeader(businessName) && r[1] == GeneratedDescription(businessName, businessDescription);
    forall i | 0 <= i < |pieces| ensures r[2 + i] == LinkElement(i, pieces[i]) {
      assert r[2 + i] == LinkElements(pieces)[i];
    }
  }

  /** The generated elements carry pairwise distinct ids. */
  lemma GeneratedIdsDistinct(businessName: string, businessDescription: string, businessLinks: string)
    ensures DistinctIds(GeneratedElements(businessName, businessDescription, businessLinks))
  {
    IdsDistinctFor(businessName, businessDescription, LinkPieces(businessLinks));
  }

  /** `GeneratedIdsDistinct` for any list of link pieces. */
  lemma {:induction false} IdsDistinctFor(businessName: string, businessDescription: string, pieces: seq<string>)
    ensures DistinctIds(FixedGenerated(businessName, businessDescription) + LinkElements(pieces))
  {
    var fixed, links := FixedGenerated(businessName, businessDescription), LinkElements(pieces);
    DifferAt("ai-header", "ai-description", 3);
    LinkElementsDistinct(pieces);
    forall x, y | x in fixed && y in links ensures x.id != y.id {
      var k :| 0 <= k < |links| && links[k] == y;
      LinkIdShape(k);
    }
    DistinctConcat(fixed, links);
  }

  /** Link ids are numbered, so no two coincide. */
  lemma {:induction false} LinkElementsDistinct(pieces: seq<string>)
    ensures DistinctIds(LinkElements(pieces))
  {
    var r := LinkElements(pieces);
    forall i, j | 0 <= i < j < |r| ensures r[i].id != r[j].id {
      if r[i].id == r[j].id {
        PrefixCancel("ai-link-", NatToString(i), NatToString(j));
        NatToStringInjective(i, j);
      }
    }
  }

  /** Two lists with distinct ids and no id in common concatenate to a list with distinct ids. */
  lemma DistinctConcat(a: seq<Element>, b: seq<Element>)
    requires DistinctIds(a) && DistinctIds(b)
    requires forall x, y :: x in a && y in b ==> x.id != y.id
    ensures DistinctIds(a + b)
  {
    var c := a + b;
    forall i, j | 0 <= i < j < |c| ensures c[i].id != c[j].id {
      if j < |a| {
        assert c[i] == a[i] && c[j] == a[j];
      } else if i >= |a| {
        assert c[i] == b[i - |a|] && c[j] == b[j - |a|];
      } else {
        assert c[i] == a[i] && c[j] == b[j - |a|];
      }
    }
  }

  /** A link id differs from the header and description ids at its fourth character. */
  lemma LinkIdShape(index: nat)
    ensures LinkId(index) != "ai-header" && LinkId(index) != "ai-description"
  {
    var id := LinkId(index);
    assert id[3] == "ai-link-"[3] == 'l';
    DifferAt(id, "ai-header", 3);
    DifferAt(id, "ai-description", 3);
  }

  /**
   * The generator's `forEach`: the two fixed elements, then one link element pushed per
   * piece, in order.
   */
  method SynthesizeElements(businessName: string, businessDescription: string, businessLinks: string)
    returns (elements: seq<Element>)
    ensures elements == GeneratedElements(businessName, businessDescription, businessLinks)
  {
    var links := LinkPieces(businessLinks);
    elements := FixedGenerated(businessName, businessDescription);
    var index := 0;
    while index < |links|
      invariant 0 <= index <= |links|
      invariant elements == FixedGenerated(businessName, businessDescription) + LinkElements(links[..index])
    {
      LinkElementsSnoc(links, index);
      elements := elements + [LinkElement(index, links[index])];
      index := index + 1;
    }
    assert links[..index] == links;
  }

  /** Numbering the links of a longer prefix adds one element at the end. */
  lemma LinkElementsSnoc(links: seq<string>, index: nat)
    requires index < |links|
    ensures LinkElements(links[..index + 1]) == LinkElements(links[..index]) + [LinkElement(index, links[index])]
  {
  }

  /** Replace all elements of page `index` (the generator's page map). */
  function ReplaceElements(d: SiteData, index: int, es: seq<Element>): (r: SiteData)
    ensures r.(pages := d.pages) == d && |r.pages| == |d.pages|
    ensures forall i :: 0 <= i < |d.pages| && i != index ==> r.pages[i] == d.pages[i]
    ensures 0 <= index < |d.pages| ==> r.pages[index] == d.pages[index].(elements := es)
    ensures !(0 <= index < |d.pages|) ==> r == d
  {
    if 0 <= index < |d.pages| then d.(pages := WithPage(d.pages, index, d.pages[index].(elements := es))) else d
  }

  // ---------------------------------------------------------------------------
  // Unique ids across edits

  /** Page ids are pairwise distinct, and so are the element ids of every page. */
  predicate WellFormed(d: SiteData)
  {
    DistinctPageIds(d.pages) && forall i :: 0 <= i < |d.pages| ==> DistinctIds(d.pages[i].elements)
  }

  /** `id` is not on page `index` (vacuously so when there is no such page). */
  predicate IdFreeOn(d: SiteData, index: int, id: string)
  {
    !(0 <= index < |d.pages|) || !HasId(d.pages[index].elements, id)
  }

  /** An edit of one page that keeps its id and leaves its element ids distinct keeps the document well formed. */
  lemma PageEditKeepsWellFormed(d: SiteData, r: SiteData, index: int)
    requires WellFormed(d) && |r.pages| == |d.pages|
    requires forall i :: 0 <= i < |d.pages| && i != index ==> r.pages[i] == d.pages[i]
    requires 0 <= index < |d.pages| ==> r.pages[index].id == d.pages[index].id && DistinctIds(r.pages[index].elements)
    ensures WellFormed(r)
  {
    assert forall i :: 0 <= i < |r.pages| ==> r.pages[i].id == d.pages[i].id;
  }

  /** Adding an element whose id is not yet on the page keeps the document well formed. */
  lemma AddKeepsWellFormed(d: SiteData, index: int, e: Element)
    requires WellFormed(d) && IdFreeOn(d, index, e.id)
    ensures WellFormed(AddElementTo(d, index, e))
  {
    if 0 <= index < |d.pages| {
      AddKeepsDistinct(d, index, e);
    }
    PageEditKeepsWellFormed(d, AddElementTo(d, index, e), index);
  }

  /** Deleting keeps the document well formed. */
  lemma DeleteKeepsWellFormed(d: SiteData, index: int, id: string)
    requires WellFormed(d)
    ensures WellFormed(DeleteElementFrom(d, index, id))
  {
    if 0 <= index < |d.pages| {
      DeleteKeepsDistinct(d.pages[index].elements, id);
    }
    PageEditKeepsWellFormed(d, DeleteElementFrom(d, index, id), index);
  }

  /** An update that does not carry an id keeps the document well formed. */
  lemma UpdateKeepsWellFormed(d: SiteData, index: int, id: string, u: ElementUpdate)
    requires WellFormed(d) && u.id.None?
    ensures WellFormed(UpdateElementIn(d, index, id, u))
  {
    if 0 <= index < |d.pages| {
      var es := d.pages[index].elements;
      var r := UpdateMatching(es, id, u);
      assert forall k :: 0 <= k < |es| ==> r[k].id == es[k].id;
    }
    PageEditKeepsWellFormed(d, UpdateElementIn(d, index, id, u), index);
  }

  /** Writing a generation's output to a page keeps the document well formed. */
  lemma GenerateKeepsWellFormed(d: SiteData, index: int, businessName: string, businessDescription: string, businessLinks: string)
    requires WellFormed(d)
    ensures WellFormed(ReplaceElements(d, index, GeneratedElements(businessName, businessDescription, businessLinks)))
  {
    GeneratedIdsDistinct(businessName, businessDescription, businessLinks);
    PageEditKeepsWellFormed(d, ReplaceElements(d, index, GeneratedElements(businessName, businessDescription, businessLinks)), index);
  }

  /** The canvas width of each preview mode. */
  function CanvasWidth(mode: PreviewMode): (w: int)
    ensures mode == Mobile ==> w == 375
    ensures mode == Tablet ==> w == 768
    ensures mode == Desktop ==> w == 1200
  {
    match mode
    case Mobile => 375
    case Tablet => 768
    case Desktop => 1200
  }

  // ---------------------------------------------------------------------------
  // The component state

  /**
   * The builder's state. `Valid()` (unique page and element ids) holds from the start and
   * survives every edit except two the model does not rule out: an added element's id is
   * `element-<now>`, so an add keeps it only when that clock reading is not already on the
   * page, and an update keeps it only when it carries no `id`.
   */
  class Builder {
    var siteData: SiteData
    var selectedPage: int
    var selectedElement: Option<string>
    var previewMode: PreviewMode
    var isPreview: bool
    var isGenerating: bool
    /** Scheduled generations in firing order: every timer has the same delay. */
    var pending: seq<Generation>
    const template: Option<Template>

    predicate Valid()
      reads this
    {
      WellFormed(siteData)
    }

    constructor (catalog: seq<Template>, templateId: string, siteName: string)
      ensures template == FindTemplate(catalog, templateId)
      ensures siteData == InitialSiteData(catalog, templateId, siteName)
      ensures template.None? <==> forall i :: 0 <= i < |catalog| ==> catalog[i].id != templateId
      ensures template.None? ==> siteData.pages == []
      ensures selectedPage == 0 && selectedElement == None
      ensures previewMode == Desktop && !isPreview && !isGenerating && pending == []
      ensures Valid()
    {
      template := FindTemplate(catalog, templateId);
      siteData := InitialSiteData(catalog, templateId, siteName);
      selectedPage := 0;
      selectedElement := None;
      previewMode := Desktop;
      isPreview := false;
      isGenerating := false;
      pending := [];
      InitialIdsDistinct(catalog, templateId, siteName);
    }

    /** Clicking a page in the page list. The element selection is kept as it was. */
    method SelectPage(index: int)
      modifies this`selectedPage
      ensures selectedPage == index
    {
      selectedPage := index;
    }

    /** Clicking an element on the canvas selects it, except in preview. */
    method ClickElement(id: string)
      modifies this`selectedElement
      ensures selectedElement == if isPreview then old(selectedElement) else Some(id)
    {
      if !isPreview {
        selectedElement := Some(id);
      }
    }

    method TogglePreview()
      modifies this`isPreview
      ensures isPreview == !old(isPreview)
    {
      isPreview := !isPreview;
    }

    method SetPreviewMode(mode: PreviewMode)
      modifies this`previewMode
      ensures previewMode == mode && CurrentCanvasWidth() == CanvasWidth(mode)
    {
      previewMode := mode;
    }

    function CurrentCanvasWidth(): int
      reads this
    {
      CanvasWidth(previewMode)
    }

    /** `handleAddElement`: append a new element to the selected page and select it. */
    method AddElement(kind: ElementType, now: nat)
      modifies this`siteData, this`selectedElement
      ensures siteData == AddElementTo(old(siteData), selectedPage, NewElement(now, kind))
      ensures selectedElement == Some(AddedId(now))
      ensures old(Valid()) && IdFreeOn(old(siteData), selectedPage, AddedId(now)) ==> Valid()
    {
      var element := NewElement(now, kind);
      if Valid() && IdFreeOn(siteData, selectedPage, element.id) {
        AddKeepsWellFormed(siteData, selectedPage, element);
      }
      siteData := AddElementTo(siteData, selectedPage, element);
      selectedElement := Some(element.id);
    }

    /** `handleDeleteElement`: drop the elements with `id`; clear the selection if it was that id. */
    method DeleteElement(id: string)
      modifies this`siteData, this`selectedElement
      ensures siteData == DeleteElementFrom(old(siteData), selectedPage, id)
      ensures selectedElement == if old(selectedElement) == Some(id) then None else old(selectedElement)
      ensures old(Valid()) ==> Valid()
    {
      if Valid() {
        DeleteKeepsWellFormed(siteData, selectedPage, id);
      }
      siteData := DeleteElementFrom(siteData, selectedPage, id);
      if selectedElement == Some(id) {
        selectedElement := None;
      }
    }

    /** `handleUpdateElement`: shallow-merge `u` into the matching elements of the selected page. */
    method UpdateElement(id: string, u: ElementUpdate)
      modifies this`siteData
      ensures siteData == UpdateElementIn(old(siteData), selectedPage, id, u)
      ensures old(Valid()) && u.id.None? ==> Valid()
    {
      if Valid() && u.id.None? {
        UpdateKeepsWellFormed(siteData, selectedPage, id, u);
      }
      siteData := UpdateElementIn(siteData, selectedPage, id, u);
    }

    /**
     * The element the properties panel shows: none without a (non-empty) selection, for a
     * selected page index outside the list, or when the id is not on the selected page.
     */
    function SelectedElementDetails(): (r: Option<Element>)
      reads this
      ensures r.Some? ==> (selectedElement.Some? && selectedElement.value != "" && 0 <= selectedPage < |siteData.pages|
        && r.value in siteData.pages[selectedPage].elements && r.value.id == selectedElement.value)
      ensures r.None? <==> (selectedElement.None? || selectedElement.value == "" || !(0 <= selectedPage < |siteData.pages|)
        || !HasId(siteData.pages[selectedPage].elements, selectedElement.value))
    {
      if selectedElement.Some? && selectedElement.value != "" && 0 <= selectedPage < |siteData.pages| then
        FindElement(siteData.pages[selectedPage].elements, selectedElement.value)
      else None
    }

    /**
     * `handleAIGenerate`, first phase: a blank business name changes nothing; otherwise the
     * inputs and the selected page are captured and a generation is scheduled.
     */
    method StartGenerate(businessName: string, businessDescription: string, businessLinks: string)
      returns (scheduled: bool)
      modifies this`isGenerating, this`pending
      ensures scheduled <==> !IsBlank(businessName)
      ensures !scheduled ==> isGenerating == old(isGenerating) && pending == old(pending)
      ensures scheduled ==> isGenerating
      ensures scheduled ==> pending == old(pending) + [Generation(selectedPage, businessName, businessDescription, businessLinks)]
    {
      if IsBlank(businessName) {
        return false;
      }
      isGenerating := true;
      pending := pending + [Generation(selectedPage, businessName, businessDescription, businessLinks)];
      return true;
    }

    /**
     * `handleAIGenerate`, second phase (the timer firing): the earliest scheduled generation
     * replaces the elements of the page it captured, whatever page is selected now.
     */
    method CompleteGenerate()
      requires pending != []
      modifies this`siteData, this`isGenerating, this`pending
      ensures var g := old(pending)[0];
        siteData == ReplaceElements(old(siteData), g.target,
          GeneratedElements(g.businessName, g.businessDescription, g.businessLinks))
      ensures !isGenerating && pending == old(pending)[1..]
      ensures old(Valid()) ==> Valid()
    {
      var g := pending[0];
      if Valid() {
        GenerateKeepsWellFormed(siteData, g.target, g.businessName, g.businessDescription, g.businessLinks);
      }
      var elements := SynthesizeElements(g.businessName, g.businessDescription, g.businessLinks);
      siteData := ReplaceElements(siteData, g.target, elements);
      isGenerating := false;
      pending := pending[1..];
    }

    /** `handleSave`: the current document goes to the save callback unchanged. */
    method Save() returns (data: SiteData)
      ensures data == siteData
    {
      data := siteData;
    }

    /** `handlePublish`: mark the document published and hand it to the publish callback. */
    method Publish() returns (data: SiteData)
      modifies this`siteData
      ensures siteData == old(siteData).(published := true) && data == siteData
      ensures old(Valid()) ==> Valid()
    {
      siteData := siteData.(published := true);
      data := siteData;
    }
  }
}
